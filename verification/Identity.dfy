/**
 The name of an endpoint travels from the callback URL the collector registers
 (rf_subscriptions.go, `getDestination`) through the pruner, the event receiver (rest.go) and the
 Kafka message key (kafka.go).  Percent-encoding is not modelled: names are made of characters
 that need none.
 */
module Identity {
  import opened Text
  import opened Subscriptions

  /** The configured callback address: scheme and host, with the port if one is given. */
  datatype BaseUrl = BaseUrl(scheme: string, host: string, port: string)

  function Destination(base: BaseUrl, restPort: nat, wantsHttps: bool, id: string): string {
    var scheme := if base.scheme == "http" && wantsHttps then "https" else base.scheme;
    scheme + "://" + base.host + Port(base, restPort) + "/" + id
  }

  function Port(base: BaseUrl, restPort: nat): string {
    if base.port != "" then ":" + base.port
    else if restPort != 80 && restPort != 443 then ":" + Itoa(restPort)
    else ""
  }

  function StripTrailing(s: string, sep: char): string {
    if s != [] && s[|s| - 1] == sep then StripTrailing(s[..|s| - 1], sep) else s
  }

  /** filepath.Base, as the receiver applies it to the request path. */
  function PathBase(p: string): string {
    if p == "" then "."
    else
      var name := LastSegment(StripTrailing(p, '/'));
      if name == "" then "/" else name
  }

  /** The context of a received payload: the one it carries, else the end of the request path. */
  function EventContext(context: string, path: string): string {
    if context == "" then PathBase(path) else context
  }

  function Slashes(n: nat): string {
    if n == 0 then "" else Slashes(n - 1) + "/"
  }

  lemma {:induction false} StripSlashes(s: string, n: nat)
    requires s == "" || s[|s| - 1] != '/'
    ensures StripTrailing(s + Slashes(n), '/') == s
  {
    if n == 0 {
      assert s + Slashes(0) == s;
    } else {
      StripSlashes(s, n - 1);
      var t := s + Slashes(n);
      assert t[|t| - 1] == '/' && t[..|t| - 1] == s + Slashes(n - 1);
    }
  }

  /** The base of a path is its last non-empty segment, whatever slashes follow; a path of slashes gives a slash
      and an empty path a dot. */
  lemma PathBaseIs(front: string, name: string, n: nat)
    requires name != "" && '/' !in name
    ensures PathBase(front + "/" + name + Slashes(n)) == name && PathBase(name + Slashes(n)) == name
    ensures PathBase(Slashes(n)) == if n == 0 then "." else "/"
  {
    var path := front + "/" + name;
    assert path[|path| - 1] == name[|name| - 1] && name[|name| - 1] in name;
    StripSlashes(path, n);
    StripSlashes(name, n);
    StripSlashes("", n);
    LastSegmentIsName(front, name);
    SplitWord(name, '/');
    assert "" + Slashes(n) == Slashes(n);
    assert n > 0 ==> Slashes(n) != "";
    assert LastSegment("") == "";
  }

  function KafkaKey(context: string, messageId: string): string {
    context + "." + messageId
  }

  /** `shouldLogMessage` takes everything before the first dot as the xname. */
  function XnameOfKey(key: string): string {
    Split(key, '.')[0]
  }

  lemma {:induction false} SplitPartsFree(s: string, sep: char)
    ensures forall p | p in Split(s, sep) :: sep !in p
  {
    if s == [] {
    } else {
      SplitPartsFree(s[1..], sep);
      SplitCons(s[0], s[1..], sep);
      assert s == [s[0]] + s[1..];
      var rest := Split(s[1..], sep);
      assert rest[0] in rest;
      forall p | p in Split(s, sep) ensures sep !in p {
        if s[0] != sep && p == [s[0]] + rest[0] {
        } else {
          assert p == "" || p in rest;
        }
      }
    }
  }

  /** The last path segment of any URL ending in "/id" is the name exactly when it has no slash. */
  lemma LastSegmentIsName(front: string, id: string)
    ensures LastSegment(front + "/" + id) == id <==> '/' !in id
  {
    SplitJoin(front, id, '/');
    var parts := Split(id, '/');
    SplitPartsFree(id, '/');
    assert parts[|parts| - 1] in parts;
    if '/' !in id {
      SplitWord(id, '/');
    }
  }

  /** The key gives the context back exactly when it has no dot. */
  lemma KeyGivesName(context: string, messageId: string)
    ensures XnameOfKey(KafkaKey(context, messageId)) == context <==> '.' !in context
  {
    SplitJoin(context, messageId, '.');
    SplitPartsFree(context, '.');
    assert Split(context, '.')[0] in Split(context, '.');
    if '.' !in context {
      SplitWord(context, '.');
    }
  }

  lemma DestinationEndsInName(base: BaseUrl, restPort: nat, wantsHttps: bool, id: string)
    ensures exists front :: Destination(base, restPort, wantsHttps, id) == front + "/" + id
  {
    var scheme := if base.scheme == "http" && wantsHttps then "https" else base.scheme;
    var front := scheme + "://" + base.host + Port(base, restPort);
    assert Destination(base, restPort, wantsHttps, id) == front + "/" + id;
  }

  /** The pruner, the receiver and the log filter all read the same name back, for every callback
      address, port and protocol choice. */
  lemma IdentityRoundTrip(base: BaseUrl, restPort: nat, wantsHttps: bool, id: string, messageId: string)
    requires id != "" && '/' !in id && '.' !in id
    ensures LastSegment(Destination(base, restPort, wantsHttps, id)) == id
    ensures EventContext("", "/" + id) == id
    ensures XnameOfKey(KafkaKey(EventContext("", "/" + id), messageId)) == id
  {
    DestinationEndsInName(base, restPort, wantsHttps, id);
    var front :| Destination(base, restPort, wantsHttps, id) == front + "/" + id;
    LastSegmentIsName(front, id);
    LastSegmentIsName("", id);
    assert "" + "/" + id == "/" + id;
    assert ("/" + id)[|id|] == id[|id| - 1];
    KeyGivesName(id, messageId);
  }

  /** The key determines both halves: a dot-free context and the message ID. */
  lemma KeyIsInjective(c1: string, m1: string, c2: string, m2: string)
    requires '.' !in c1 && '.' !in c2 && KafkaKey(c1, m1) == KafkaKey(c2, m2)
    ensures c1 == c2 && m1 == m2
  {
    KeyGivesName(c1, m1);
    KeyGivesName(c2, m2);
    assert m1 == KafkaKey(c1, m1)[|c1| + 1..] && m2 == KafkaKey(c2, m2)[|c2| + 1..];
  }

  /** A context the BMC does send is kept. */
  lemma ContextIsKept(context: string, path: string)
    requires context != ""
    ensures EventContext(context, path) == context
  {
  }

  lemma FourSegments(a: string, b: string, c: string, e: string)
    requires '/' !in a && '/' !in b && '/' !in c && '/' !in e
    ensures Split(a + "/" + (b + "/" + (c + "/" + e)), '/') == [a, b, c, e]
  {
    SplitJoin(a, b + "/" + (c + "/" + e), '/');
    SplitJoin(b, c + "/" + e, '/');
    SplitJoin(c, e, '/');
    SplitWord(a, '/');
    SplitWord(b, '/');
    SplitWord(c, '/');
    SplitWord(e, '/');
  }

  lemma Assoc(a: string, b: string, c: string)
    ensures a + (b + c) == a + b + c
  {
  }

  lemma Regroup(s: string, colon: string, slash: string, b: string, p: string, e: string)
    ensures s + (colon + slash + slash) + b + p + slash + e == s + colon + slash + (slash + (b + p + slash + e))
  {
    var tail := slash + e;
    Assoc(s, colon + slash, slash);
    Assoc(s, colon, slash);
    var front := s + colon + slash;
    Assoc(front + slash, b, p);
    Assoc(front + slash, b + p, slash);
    Assoc(front + slash, b + p + slash, e);
    Assoc(front, slash, b + p + slash + e);
  }

  lemma DestinationIs(base: BaseUrl, restPort: nat, wantsHttps: bool, id: string, scheme: string)
    requires if base.scheme == "http" && wantsHttps then scheme == "https" else scheme == base.scheme
    ensures Destination(base, restPort, wantsHttps, id) ==
            scheme + ":" + "/" + ("/" + (base.host + Port(base, restPort) + "/" + id))
  {
    assert ":" + "/" + "/" == "://";
    Regroup(scheme, ":", "/", base.host, Port(base, restPort), id);
  }

  /** The segments of the callback address: a scheme that is https wherever the endpoint wants it, the host, and the
      port: the configured one, else the one the service listens on unless it is 80 or 443. */
  lemma DestinationSegments(base: BaseUrl, restPort: nat, wantsHttps: bool, id: string, scheme: string, authority: string)
    requires '/' !in id && '/' !in scheme && '/' !in authority
    requires if base.scheme == "http" && wantsHttps then scheme == "https" else scheme == base.scheme
    requires if base.port != "" then authority == base.host + ":" + base.port
             else if restPort in {80, 443} then authority == base.host
             else authority == base.host + ":" + Itoa(restPort)
    ensures Split(Destination(base, restPort, wantsHttps, id), '/') == [scheme + ":", "", authority, id]
  {
    DestinationIs(base, restPort, wantsHttps, id, scheme);
    assert base.host + Port(base, restPort) == authority by {
      Assoc(base.host, ":", base.port);
      Assoc(base.host, ":", Itoa(restPort));
    }
    assert "" + "/" + (authority + "/" + id) == "/" + (authority + "/" + id);
    FourSegments(scheme + ":", "", authority, id);
  }

  /** A site whose callback addresses are built this way. */
  ghost predicate CallsBackTo(c: Site, base: BaseUrl, restPort: nat, wantsHttps: string -> bool) {
    forall id :: c.destination(id) == Destination(base, restPort, wantsHttps(id), id)
  }

  /** A subscription to our own address is pruned exactly when its context is some other valid
      xname; blanking or garbling the context never loses it. */
  lemma OwnSubscriptionPruned(c: Site, base: BaseUrl, restPort: nat, wantsHttps: string -> bool, id: string, sub: Subscription)
    requires CallsBackTo(c, base, restPort, wantsHttps) && sub.destination == c.destination(id)
    requires id != "" && '/' !in id && '.' !in id
    ensures ForWrongXname(c, id, sub) <==>
            c.prune && c.isXname(id) && c.isXname(sub.context) && c.normalize(sub.context) != c.normalize(id)
    ensures sub.context == "" && !c.isXname("") ==> !ForWrongXname(c, id, sub)
  {
    IdentityRoundTrip(base, restPort, wantsHttps(id), id, "");
  }
}
