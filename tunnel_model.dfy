/**
 * The view state of one tunnel: read-only projections of the daemon's tunnel
 * record, the resolved node name, and the Enabled toggle, which sends an
 * update request instead of changing the local record.
 */
module Tunnels {
  import opened Wrappers
  import opened Proto

  /** Node name shown when the tunnel's node is not in the given node table. */
  const UnknownNode := "未知节点"

  predicate IsLower(c: char) {
    'a' <= c <= 'z'
  }

  /** ASCII upper-casing of one character. */
  function UpperChar(c: char): char {
    if IsLower(c) then (c as int - 32) as char else c
  }

  /** ASCII upper-casing of a string, character by character. */
  function Upper(s: string): (r: string)
    ensures |r| == |s|
    ensures forall i :: 0 <= i < |s| ==> r[i] == UpperChar(s[i])
    ensures forall i :: 0 <= i < |r| ==> !IsLower(r[i])
  {
    if s == [] then [] else [UpperChar(s[0])] + Upper(s[1..])
  }

  /** Upper-casing twice is upper-casing once. */
  lemma {:induction false} UpperIdempotent(s: string)
    ensures Upper(Upper(s)) == Upper(s)
  {
    if s != [] {
      UpperIdempotent(s[1..]);
      assert Upper(s)[1..] == Upper(s[1..]);
    }
  }

  /** The node name for `node`: its entry in `nodes` when there is one, UnknownNode otherwise. */
  function NodeNameFor(node: int, nodes: Option<map<int, string>>): string {
    if nodes.Some? && node in nodes.value then nodes.value[node] else UnknownNode
  }

  class TunnelModel {
    var proto: Tunnel
    var nodeName: string

    /** Takes the record and resolves the node name; without a node table the name is UnknownNode. */
    constructor (proto: Tunnel, nodes: Option<map<int, string>>)
      ensures this.proto == proto
      ensures nodeName == NodeNameFor(proto.node, nodes)
      ensures nodes.None? ==> nodeName == UnknownNode
    {
      this.proto := proto;
      nodeName := NodeNameFor(proto.node, nodes);
    }

    function Id(): int
      reads this`proto
    {
      proto.id
    }

    function Node(): int
      reads this`proto
    {
      proto.node
    }

    function Name(): string
      reads this`proto
    {
      proto.name
    }

    /** The tunnel type in upper case; showing it again changes nothing. */
    function Type(): (r: string)
      reads this`proto
      ensures |r| == |proto.tunnelType|
      ensures forall i :: 0 <= i < |r| ==> r[i] == UpperChar(proto.tunnelType[i])
      ensures Upper(r) == r
    {
      UpperIdempotent(proto.tunnelType);
      Upper(proto.tunnelType)
    }

    function Description(): string
      reads this`proto
    {
      proto.description
    }

    function State(): int
      reads this`proto
    {
      proto.state
    }

    function Enabled(): bool
      reads this`proto
    {
      proto.enabled
    }

    function Note(): string
      reads this`proto
    {
      proto.note
    }

    /** Whether the note is empty; protobuf strings are never null. */
    function NoteEmpty(): bool
      reads this`proto
    {
      Note() == ""
    }

    /**
     * Setting Enabled: the request for the daemon carries only this tunnel's
     * id and the new flag; the local record is left alone (no `modifies`).
     * `rpcFails` stands for the synchronous daemon call throwing; `raised`
     * reports that the exception reaches the caller of the setter.
     */
    method SetEnabled(value: bool, rpcFails: bool) returns (request: TunnelUpdate, raised: bool)
      ensures request.action == Update
      ensures request.tunnel.id == Id() && request.tunnel.enabled == value
      ensures request.tunnel == EmptyTunnel.(id := Id(), enabled := value)
      ensures raised == rpcFails
    {
      request := TunnelUpdate(Update, EmptyTunnel.(id := Id(), enabled := value));
      raised := rpcFails;
    }

    /** Resolves the node name from a node table that may be absent. */
    method SetNodeName(nodes: Option<map<int, string>>)
      modifies this`nodeName
      ensures nodes.Some? && proto.node in nodes.value ==> nodeName == nodes.value[proto.node]
      ensures !(nodes.Some? && proto.node in nodes.value) ==> nodeName == UnknownNode
    {
      nodeName := NodeNameFor(Node(), nodes);
    }
  }

  /** Every projection depends on the record alone: equal records give equal views. */
  lemma ProjectionsDependOnlyOnProto(a: TunnelModel, b: TunnelModel)
    requires a.proto == b.proto
    ensures a.Id() == b.Id() && a.Node() == b.Node() && a.Name() == b.Name()
    ensures a.Type() == b.Type() && a.Description() == b.Description() && a.State() == b.State()
    ensures a.Enabled() == b.Enabled() && a.Note() == b.Note() && a.NoteEmpty() == b.NoteEmpty()
  {
  }
}
