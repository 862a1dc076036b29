/**
 * ConnectorPair: two docking connectors handled together. A connector is
 * seen through its status (MyShipConnectorStatus) at the moment it is
 * read; a missing connector is None.
 */
module Connectors {
  import opened Wrappers

  /** MyShipConnectorStatus. */
  datatype ConnectorStatus = Unconnected | Connectable | Connected

  datatype Side = LeftSide | RightSide

  /** The commands a pair passes on to its connectors. */
  datatype Command = Connect | Disconnect | TurnOn | TurnOff

  datatype Action = Action(side: Side, command: Command)

  datatype ConnectorPair = ConnectorPair(left: Option<ConnectorStatus>, right: Option<ConnectorStatus>)
  {
    /** IsValid: both connectors are present. */
    predicate IsValid() {
      left.Some? && right.Some?
    }

    /** ConnectorPair.Connected; it dereferences both connectors. */
    predicate Connected()
      requires IsValid()
      ensures Connected() ==> Connectable()
    {
      left.value == ConnectorStatus.Connected && right.value == ConnectorStatus.Connected
    }

    /** ConnectorPair.Connectable: each side connectable or already connected, i.e. neither side unconnected. */
    predicate Connectable()
      requires IsValid()
      ensures Connectable() <==> left.value != Unconnected && right.value != Unconnected
    {
      (left.value == ConnectorStatus.Connectable || left.value == ConnectorStatus.Connected) &&
      (right.value == ConnectorStatus.Connectable || right.value == ConnectorStatus.Connected)
    }

    /**
     * The guard shared by Lock, Unlock, PowerOn and PowerOff: on a valid
     * pair the command goes to the left then the right connector; on an
     * invalid pair nothing is sent.
     */
    function Guarded(command: Command): (sent: seq<Action>)
      ensures |sent| > 0 <==> IsValid()
      ensures IsValid() ==> sent == [Action(LeftSide, command), Action(RightSide, command)]
    {
      if !IsValid() then [] else [Action(LeftSide, command), Action(RightSide, command)]
    }

    function Lock(): seq<Action> {
      Guarded(Connect)
    }

    function Unlock(): seq<Action> {
      Guarded(Disconnect)
    }

    function PowerOn(): seq<Action> {
      Guarded(TurnOn)
    }

    function PowerOff(): seq<Action> {
      Guarded(TurnOff)
    }
  }

  /**
   * The ConnectorPair constructor: the connectors are stored only when
   * both are present; otherwise both fields stay null and the pair is
   * invalid.
   */
  function NewConnectorPair(left: Option<ConnectorStatus>, right: Option<ConnectorStatus>): (p: ConnectorPair)
    ensures p.IsValid() <==> left.Some? && right.Some?
    ensures p.IsValid() ==> p.left == left && p.right == right
    ensures !p.IsValid() ==> p.left.None? && p.right.None?
  {
    if left.None? then ConnectorPair(None, None)
    else if right.None? then ConnectorPair(None, None)
    else ConnectorPair(left, right)
  }
}
