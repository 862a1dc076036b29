/**
 * MyGPSWaypoint: a named point, its constructors, and the colon-delimited
 * "GPS:<name>:<x>:<y>:<z>:" text record it is written to and read from.
 *
 * Number formatting (double.ToString) and parsing (double.TryParse) are
 * culture- and precision-dependent; they enter as function parameters,
 * `format` and `parse`, and every property below holds for all of them
 * unless its requires says otherwise.
 */
module Waypoints {
  import opened Wrappers
  import opened Geometry

  /** A waypoint. A C# null Name is represented by "". */
  datatype GpsWaypoint = GpsWaypoint(x: real, y: real, z: real, name: string, isEmpty: bool)
  {
    /** MyGPSWaypoint.ToVector. */
    function ToVector(): Vec3 {
      Vec3(x, y, z)
    }
  }

  /** The parameterless constructor: default fields, marked empty. */
  function Empty(): (w: GpsWaypoint)
    ensures w.isEmpty && w.ToVector() == Zero && w.name == ""
  {
    GpsWaypoint(0.0, 0.0, 0.0, "", true)
  }

  /** The (x, y, z, name) constructor. */
  function FromCoordinates(x: real, y: real, z: real, name: string): (w: GpsWaypoint)
    ensures !w.isEmpty && w.ToVector() == Vec3(x, y, z) && w.name == name
  {
    GpsWaypoint(x, y, z, name, false)
  }

  /** The (name, Vector3) constructor; it leaves IsEmpty at its default, false. */
  function FromVector(name: string, v: Vec3): (w: GpsWaypoint)
    ensures !w.isEmpty && w.ToVector() == v && w.name == name
  {
    GpsWaypoint(v.x, v.y, v.z, name, false)
  }

  // ---------------------------------------------------------------------
  // String.Split on one separator character

  function Occurrences(s: string, c: char): nat {
    if s == [] then 0 else (if s[0] == c then 1 else 0) + Occurrences(s[1..], c)
  }

  lemma {:induction false} OccurrencesAppend(a: string, b: string, c: char)
    ensures Occurrences(a + b, c) == Occurrences(a, c) + Occurrences(b, c)
  {
    if a != [] {
      assert (a + b)[0] == a[0];
      assert (a + b)[1..] == a[1..] + b;
      OccurrencesAppend(a[1..], b, c);
    } else {
      assert a + b == b;
    }
  }

  lemma OccurrencesGrow(a: string, b: string, c: char)
    ensures Occurrences(a + b, c) >= Occurrences(a, c)
    ensures Occurrences(a + [c], c) == Occurrences(a, c) + 1
  {
    OccurrencesAppend(a, b, c);
    OccurrencesAppend(a, [c], c);
    assert [c][1..] == [];
  }

  lemma {:induction false} OccurrencesAbsent(s: string, c: char)
    requires c !in s
    ensures Occurrences(s, c) == 0
  {
    if s != [] {
      OccurrencesAbsent(s[1..], c);
    }
  }

  /**
   * String.Split(sep): the pieces between separators, empty pieces kept,
   * so there is always one piece more than there are separators.
   */
  function Split(s: string, sep: char): (parts: seq<string>)
    ensures |parts| == Occurrences(s, sep) + 1
    ensures forall i :: 0 <= i < |parts| ==> sep !in parts[i]
  {
    if s == [] then [""]
    else
      var rest := Split(s[1..], sep);
      if s[0] == sep then [""] + rest
      else [[s[0]] + rest[0]] + rest[1..]
  }

  /** String.Join(sep, parts), the inverse of Split. */
  function Join(parts: seq<string>, sep: char): string
    requires |parts| >= 1
  {
    if |parts| == 1 then parts[0] else parts[0] + [sep] + Join(parts[1..], sep)
  }

  lemma {:induction false} JoinSplit(s: string, sep: char)
    ensures Join(Split(s, sep), sep) == s
  {
    if s != [] {
      var rest := Split(s[1..], sep);
      JoinSplit(s[1..], sep);
      if s[0] == sep {
        assert Split(s, sep)[1..] == rest;
        assert s == [sep] + s[1..];
      } else {
        var parts := Split(s, sep);
        if |rest| == 1 {
          assert parts == [[s[0]] + rest[0]];
        } else {
          assert parts[1..] == rest[1..];
          assert Join(rest, sep) == rest[0] + [sep] + Join(rest[1..], sep);
        }
      }
    }
  }

  /** A piece without the separator, followed by the separator, splits off whole. */
  lemma {:induction false} SplitAfterPiece(a: string, b: string, sep: char)
    requires sep !in a
    ensures Split(a + [sep] + b, sep) == [a] + Split(b, sep)
  {
    if a == [] {
      assert a + [sep] + b == [sep] + b;
      assert ([sep] + b)[1..] == b;
    } else {
      assert (a + [sep] + b)[1..] == a[1..] + [sep] + b;
      SplitAfterPiece(a[1..], b, sep);
      assert [a[0]] + a[1..] == a;
    }
  }

  lemma {:induction false} SplitWithout(a: string, sep: char)
    requires sep !in a
    ensures Split(a, sep) == [a]
  {
    if a != [] {
      SplitWithout(a[1..], sep);
      assert [a[0]] + a[1..] == a;
    }
  }

  // ---------------------------------------------------------------------
  // The GPS record

  /** MyGPSWaypoint.Serialize: "GPS:{Name}:{X}:{Y}:{Z}:", a record that always ends with a separator. */
  function Serialize(w: GpsWaypoint, format: real -> string): (s: string)
    ensures |s| >= 5 && s[|s| - 1] == ':'
  {
    "GPS:" + w.name + ":" + format(w.x) + ":" + format(w.y) + ":" + format(w.z) + ":"
  }

  /**
   * The field checks shared by both readers: the first field "GPS", the
   * second the name, the next three numbers. The object filled in comes
   * from the parameterless constructor, so a successful parse is still
   * marked empty.
   */
  function ParseFields(chunks: seq<string>, parse: string -> Option<real>): (r: Option<GpsWaypoint>)
    requires |chunks| >= 5
    ensures r.Some? <==>
      chunks[0] == "GPS" && parse(chunks[2]).Some? && parse(chunks[3]).Some? && parse(chunks[4]).Some?
    ensures r.Some? ==>
      r.value == GpsWaypoint(parse(chunks[2]).value, parse(chunks[3]).value,
                             parse(chunks[4]).value, chunks[1], true)
  {
    if chunks[0] != "GPS" then None
    else
      var waypoint := Empty().(name := chunks[1]);
      match parse(chunks[2])
      case None => None
      case Some(x) =>
        match parse(chunks[3])
        case None => None
        case Some(y) =>
          match parse(chunks[4])
          case None => None
          case Some(z) => Some(waypoint.(x := x, y := y, z := z))
  }

  /** MyGPSWaypoint.Deserialize: exactly five colon-separated fields. */
  function Deserialize(s: string, parse: string -> Option<real>): (r: Option<GpsWaypoint>)
    ensures r.Some? ==> |Split(s, ':')| == 5 && r.value.isEmpty
    ensures |Split(s, ':')| == 5 ==> r == ParseFields(Split(s, ':'), parse)
  {
    var chunks := Split(s, ':');
    if |chunks| != 5 then None else ParseFields(chunks, parse)
  }

  /**
   * The string constructor: copy a successful parse and clear IsEmpty;
   * on a failed parse every field keeps its default, IsEmpty included,
   * so the failed object is NOT marked empty.
   */
  function FromString(s: string, parse: string -> Option<real>): (w: GpsWaypoint)
    ensures !w.isEmpty
    ensures Deserialize(s, parse).None? ==> w.ToVector() == Zero && w.name == ""
    ensures Deserialize(s, parse).Some? ==> w == Deserialize(s, parse).value.(isEmpty := false)
  {
    match Deserialize(s, parse)
    case None => GpsWaypoint(0.0, 0.0, 0.0, "", false)
    case Some(d) => d.(isEmpty := false)
  }

  /** Serialize's trailing ':' always yields a sixth field, so Deserialize never accepts it. */
  lemma SerializeNeverDeserializes(w: GpsWaypoint, format: real -> string, parse: string -> Option<real>)
    ensures Deserialize(Serialize(w, format), parse) == None
    ensures FromString(Serialize(w, format), parse) == GpsWaypoint(0.0, 0.0, 0.0, "", false)
  {
    var s0 := "GPS:";
    assert s0 == "GPS" + [':'];
    OccurrencesAbsent("GPS", ':');
    OccurrencesGrow("GPS", [], ':');
    var s2 := s0 + w.name + ":";
    OccurrencesGrow(s0, w.name, ':');
    OccurrencesGrow(s0 + w.name, [], ':');
    var s4 := s2 + format(w.x) + ":";
    OccurrencesGrow(s2, format(w.x), ':');
    OccurrencesGrow(s2 + format(w.x), [], ':');
    var s6 := s4 + format(w.y) + ":";
    OccurrencesGrow(s4, format(w.y), ':');
    OccurrencesGrow(s4 + format(w.y), [], ':');
    var s8 := s6 + format(w.z) + ":";
    OccurrencesGrow(s6, format(w.z), ':');
    OccurrencesGrow(s6 + format(w.z), [], ':');
    assert s8 == Serialize(w, format);
    assert Occurrences(s8, ':') >= 5;
  }

  /**
   * The reader the record format calls for: the same checks, but on the
   * six fields that the terminating ':' produces, the sixth empty.
   */
  function DeserializeTerminated(s: string, parse: string -> Option<real>): (r: Option<GpsWaypoint>)
    ensures r.Some? ==> |Split(s, ':')| == 6 && Split(s, ':')[5] == "" && r.value.isEmpty
    ensures |Split(s, ':')| == 6 && Split(s, ':')[5] == "" ==> r == ParseFields(Split(s, ':'), parse)
  {
    var chunks := Split(s, ':');
    if |chunks| != 6 || chunks[5] != "" then None else ParseFields(chunks, parse)
  }

  /** The string constructor over the corrected reader. */
  function FromStringTerminated(s: string, parse: string -> Option<real>): (w: GpsWaypoint)
    ensures !w.isEmpty
    ensures DeserializeTerminated(s, parse).None? ==> w.ToVector() == Zero && w.name == ""
    ensures DeserializeTerminated(s, parse).Some? ==> w == DeserializeTerminated(s, parse).value.(isEmpty := false)
  {
    match DeserializeTerminated(s, parse)
    case None => GpsWaypoint(0.0, 0.0, 0.0, "", false)
    case Some(d) => d.(isEmpty := false)
  }

  /** A record is its fields, each followed by a ':'. */
  lemma SerializeNested(w: GpsWaypoint, format: real -> string)
    ensures Serialize(w, format) ==
      "GPS" + [':'] + (w.name + [':'] + (format(w.x) + [':'] + (format(w.y) + [':'] + (format(w.z) + [':'] + ""))))
  {
  }

  /** The fields of a serialized waypoint whose parts hold no ':'. */
  lemma SplitSerialized(w: GpsWaypoint, format: real -> string)
    requires ':' !in w.name
    requires ':' !in format(w.x) && ':' !in format(w.y) && ':' !in format(w.z)
    ensures Split(Serialize(w, format), ':') == ["GPS", w.name, format(w.x), format(w.y), format(w.z), ""]
  {
    var t5: string := "";
    var t4 := format(w.z) + [':'] + t5;
    var t3 := format(w.y) + [':'] + t4;
    var t2 := format(w.x) + [':'] + t3;
    var t1 := w.name + [':'] + t2;
    var t0 := "GPS" + [':'] + t1;
    SerializeNested(w, format);
    assert Split(t4, ':') == [format(w.z), ""] by {
      SplitWithout(t5, ':');
      SplitAfterPiece(format(w.z), t5, ':');
    }
    assert Split(t3, ':') == [format(w.y)] + Split(t4, ':') by {
      SplitAfterPiece(format(w.y), t4, ':');
    }
    assert Split(t2, ':') == [format(w.x)] + Split(t3, ':') by {
      SplitAfterPiece(format(w.x), t3, ':');
    }
    assert Split(t1, ':') == [w.name] + Split(t2, ':') by {
      SplitAfterPiece(w.name, t2, ':');
    }
    assert Split(t0, ':') == ["GPS"] + Split(t1, ':') by {
      SplitAfterPiece("GPS", t1, ':');
    }
  }

  /**
   * With the corrected reader, a waypoint survives being written and read
   * back, provided the name and the formatted numbers hold no ':' and
   * `parse` undoes `format` on the three coordinates.
   */
  lemma SerializeRoundTrip(w: GpsWaypoint, format: real -> string, parse: string -> Option<real>)
    requires !w.isEmpty
    requires ':' !in w.name
    requires ':' !in format(w.x) && ':' !in format(w.y) && ':' !in format(w.z)
    requires parse(format(w.x)) == Some(w.x)
    requires parse(format(w.y)) == Some(w.y)
    requires parse(format(w.z)) == Some(w.z)
    ensures DeserializeTerminated(Serialize(w, format), parse) == Some(w.(isEmpty := true))
    ensures FromStringTerminated(Serialize(w, format), parse) == w
  {
    SplitSerialized(w, format);
  }
}
