/**
 The client side of Redfish event subscriptions against one BMC
 (cmd/hmcollector/rf_subscriptions.go), as functions on values.

 A BMC is the sequence of its subscription resources.  One *operation* (a prune
 loop, the duplicate check of a group, the event-type GET and POST for a group, or a
 group check of a verify pass) runs against a `Net`, which says of every request the
 operation can make whether it fails.  Assumptions: a request that does not fail takes effect and a
 GET reports truthfully; a request that fails has no effect; members keep their
 order and a POST appends; `destination` is stable.
 */
module Subscriptions {
  import opened Basics
  import opened Text

  datatype Subscription = Subscription(
    context: string,
    destination: string,
    eventTypes: seq<string>,
    protocol: string,
    registryPrefixes: seq<string>)

  /** One entry of the collection: its `@odata.id` and the resource behind it. */
  datatype Member = Member(oid: string, sub: Subscription)

  /** A registry prefix group; Go's nil slice and an empty slice behave differently. */
  datatype Group = NilGroup | Prefixes(names: seq<string>) {
    function Names(): seq<string> {
      if NilGroup? then [] else names
    }
  }

  datatype Request =
    | ListSubscriptions
    | GetSubscription(oid: string)
    | DeleteSubscription(oid: string)
    | PatchContext(oid: string)
    | GetEventTypes
    | PostSubscription

  /** Outcomes of the requests of one operation: which fail, the status code that answers a POST, the
      identifier the BMC proposes for the new resource, and the event types it offers. */
  datatype Net = Net(fails: Request -> bool, status: int, created: string, eventTypes: seq<string>)

  /** Flags, the xname library and the callback address of an endpoint. */
  datatype Site = Site(
    prune: bool,
    streaming: bool,
    isXname: string -> bool,
    normalize: string -> string,
    destination: string -> string)

  const TELEMETRY: Group := Prefixes(["CrayTelemetry"])

  function Groups(c: Site): (gs: seq<Group>) {
    if c.streaming then [NilGroup, TELEMETRY] else [NilGroup]
  }

  // ---------------------------------------------------------------- predicates

  predicate MatchesGroup(g: Group, present: seq<string>) {
    if |g.Names()| == 0 && |present| == 0 then true
    else g.Prefixes? && forall n | n in g.names :: n in present
  }

  /** A subscription that calls back to this endpoint's address for group `g`. */
  predicate Ours(c: Site, id: string, g: Group, sub: Subscription) {
    sub.destination == c.destination(id) && MatchesGroup(g, sub.registryPrefixes)
  }

  function XnameOf(c: Site, sub: Subscription): string {
    if c.isXname(sub.context) then sub.context else LastSegment(sub.destination)
  }

  predicate ForWrongXname(c: Site, id: string, sub: Subscription) {
    && c.prune
    && c.isXname(id)
    && c.isXname(XnameOf(c, sub))
    && c.normalize(XnameOf(c, sub)) != c.normalize(id)
  }

  // ---------------------------------------------------------------- the BMC

  function Oids(m: seq<Member>): (r: seq<string>)
    ensures |r| == |m| && forall i | 0 <= i < |m| :: r[i] == m[i].oid
  {
    seq(|m|, i requires 0 <= i < |m| => m[i].oid)
  }

  predicate DistinctOids(m: seq<Member>) {
    forall i, j | 0 <= i < j < |m| :: m[i].oid != m[j].oid
  }

  predicate HasOid(m: seq<Member>, oid: string) {
    exists i | 0 <= i < |m| :: m[i].oid == oid
  }

  function Lookup(m: seq<Member>, oid: string): Option<Subscription> {
    if m == [] then None
    else if m[0].oid == oid then Some(m[0].sub)
    else Lookup(m[1..], oid)
  }

  function Remove(m: seq<Member>, oid: string): seq<Member> {
    if m == [] then []
    else if m[0].oid == oid then Remove(m[1..], oid)
    else [m[0]] + Remove(m[1..], oid)
  }

  function SetContext(m: seq<Member>, oid: string, context: string): seq<Member> {
    if m == [] then []
    else if m[0].oid == oid then
      [m[0].(sub := m[0].sub.(context := context))] + SetContext(m[1..], oid, context)
    else [m[0]] + SetContext(m[1..], oid, context)
  }

  function Fetch(net: Net, m: seq<Member>, oid: string): Option<Subscription> {
    if net.fails(GetSubscription(oid)) then None else Lookup(m, oid)
  }

  // ---------------------------------------------------------------- operations

  /** The loop that deletes subscriptions of moved hardware. */
  function PruneFrom(c: Site, id: string, net: Net, todo: seq<string>, m: seq<Member>): seq<Member>
    decreases |todo|
  {
    if todo == [] then m
    else
      var got := Fetch(net, m, todo[0]);
      if got.Some? && ForWrongXname(c, id, got.value) && !net.fails(DeleteSubscription(todo[0])) then
        PruneFrom(c, id, net, todo[1..], Remove(m, todo[0]))
      else
        PruneFrom(c, id, net, todo[1..], m)
  }

  function Prune(c: Site, id: string, net: Net, m: seq<Member>): seq<Member> {
    if c.prune && !net.fails(ListSubscriptions) then PruneFrom(c, id, net, Oids(m), m) else m
  }

  datatype Check = CheckError | Present | Absent

  /** Result of a duplicate check.  `stuck` records that a DELETE failed straight after a
      failed PATCH, so a subscription reported absent is in fact still there. */
  datatype Scan = Scan(check: Check, members: seq<Member>, stuck: bool)

  function FixContext(c: Site, id: string, net: Net, oid: string, m: seq<Member>): Scan {
    if !net.fails(PatchContext(oid)) then Scan(Present, SetContext(m, oid, id), false)
    else if !net.fails(DeleteSubscription(oid)) then Scan(Absent, Remove(m, oid), false)
    else Scan(Absent, m, true)
  }

  function ScanFrom(c: Site, id: string, g: Group, net: Net, todo: seq<string>, m: seq<Member>): Scan
    decreases |todo|
  {
    if todo == [] then Scan(Absent, m, false)
    else
      match Fetch(net, m, todo[0])
      case None => Scan(CheckError, m, false)
      case Some(sub) =>
        if Ours(c, id, g, sub) then
          if sub.context == id then Scan(Present, m, false) else FixContext(c, id, net, todo[0], m)
        else if && sub.destination != c.destination(id)
                && ForWrongXname(c, id, sub)
                && !net.fails(DeleteSubscription(todo[0])) then
          ScanFrom(c, id, g, net, todo[1..], Remove(m, todo[0]))
        else
          ScanFrom(c, id, g, net, todo[1..], m)
  }

  function IsDup(c: Site, id: string, g: Group, net: Net, m: seq<Member>): Scan {
    if net.fails(ListSubscriptions) then Scan(CheckError, m, false)
    else ScanFrom(c, id, g, net, Oids(m), m)
  }

  function NewSubscription(c: Site, id: string, g: Group, net: Net): Subscription {
    Subscription(id, c.destination(id), net.eventTypes, "Redfish", g.Names())
  }

  /** An identifier longer than all that are in use. */
  function FreshOid(m: seq<Member>): (r: string)
    ensures forall i | 0 <= i < |m| :: |m[i].oid| < |r|
  {
    if m == [] then "0"
    else
      var r := FreshOid(m[1..]);
      if |m[0].oid| < |r| then r else m[0].oid + "0"
  }

  /** The identifier of a new resource: the proposed one, if it is free. */
  function FreeOid(wanted: string, m: seq<Member>): (r: string)
    ensures !HasOid(m, r)
  {
    if HasOid(m, wanted) then FreshOid(m) else wanted
  }

  /** The BMC takes the POST: the request arrives and is answered 200, 201 or 204. */
  predicate Accepts(net: Net) {
    !net.fails(PostSubscription) && (net.status == 200 || net.status == 201 || net.status == 204)
  }

  function Post(c: Site, id: string, g: Group, net: Net, m: seq<Member>): seq<Member> {
    if Accepts(net) then m + [Member(FreeOid(net.created, m), NewSubscription(c, id, g, net))] else m
  }

  datatype Status = ERROR | PENDING | COMPLETE

  /** Effect of one half of a group iteration: the BMC, the status written (if any), and whether the
      group is recorded in the prefix list. */
  datatype Written = Written(members: seq<Member>, status: Option<Status>, record: bool)

  /** First half: the duplicate check.  Only the answer "absent" leads to the second half. */
  function CheckHalf(c: Site, id: string, g: Group, net: Net, m: seq<Member>): Written {
    var scan := IsDup(c, id, g, net, m);
    match scan.check
    case CheckError => Written(scan.members, Some(ERROR), false)
    case Present => Written(scan.members, Some(COMPLETE), true)
    case Absent => Written(scan.members, None, false)
  }

  /** The second half creates the subscription. */
  predicate Creates(net: Net) {
    !net.fails(GetEventTypes) && Accepts(net)
  }

  /** Second half: GET the event types, then POST. */
  function PostHalf(c: Site, id: string, g: Group, net: Net, m: seq<Member>): Written {
    if net.fails(GetEventTypes) then Written(m, Some(ERROR), false)
    else Written(Post(c, id, g, net, m), None, Accepts(net))
  }

  /** A whole group iteration that nothing interrupts. */
  function SubscribeGroup(c: Site, id: string, g: Group, net: Net, m: seq<Member>): Written {
    var first := CheckHalf(c, id, g, net, m);
    if first.status.Some? then first else PostHalf(c, id, g, net, first.members)
  }

  /** A verify pass writes ERROR for every group it does not find. */
  predicate VerifyFails(c: Site, id: string, g: Group, net: Net, m: seq<Member>) {
    IsDup(c, id, g, net, m).check != Present
  }

  /** What a BMC can undergo.  `who` tells the subscribe goroutines of an endpoint apart. */
  datatype Op =
    | PruneOp(net: Net)
    | CheckOp(who: nat, group: Group, net: Net)
    | PostOp(who: nat, group: Group, net: Net)
    | VerifyOp(group: Group, net: Net)
    | LoseOp(oids: set<string>)   // the BMC forgets subscriptions on its own

  function Lose(m: seq<Member>, oids: set<string>): seq<Member> {
    if m == [] then []
    else if m[0].oid in oids then Lose(m[1..], oids)
    else [m[0]] + Lose(m[1..], oids)
  }

  function Apply(c: Site, id: string, op: Op, m: seq<Member>): seq<Member> {
    match op
    case PruneOp(net) => Prune(c, id, net, m)
    case CheckOp(_, g, net) => IsDup(c, id, g, net, m).members
    case PostOp(_, g, net) => PostHalf(c, id, g, net, m).members
    case VerifyOp(g, net) => IsDup(c, id, g, net, m).members
    case LoseOp(oids) => Lose(m, oids)
  }

  /** 1 when the operation leaves a stuck subscription behind for group `g`. */
  function StuckBy(c: Site, id: string, g: Group, op: Op, m: seq<Member>): nat {
    if op.CheckOp? && op.group == g && IsDup(c, id, g, op.net, m).stuck then 1 else 0
  }
}
