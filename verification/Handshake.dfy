/**
  Negotiation of the compatibility tuple: the offers, the meaning of an agreement, and the
  loops that compute it on both sides of the handshake. Strings are byte strings.
*/
module Handshake {
  import opened Common
  import opened Utf8

  datatype Flag = Flag(name: Text, required: bool)

  /** The host's acceptable version range for one service. */
  datatype Requirement = Requirement(service: Text, lo: nat, hi: nat)

  datatype Advert = Advert(service: Text, version: nat)

  datatype Offer = Offer(
    protocolMin: nat, protocolMax: nat,
    transports: seq<Text>, codecs: seq<Text>, layouts: seq<nat>,
    features: seq<Flag>, services: seq<Requirement>)

  datatype Tuple = Tuple(protocol: nat, transport: Text, layout: nat, features: map<Text, bool>, codec: Text)

  /** The axis a refusal names, in the order they are decided. */
  datatype Axis =
    | ProtocolRange
    | NoTransport
    | NoLayout
    | NoCodec
    | NeededByHost(name: Text)
    | NeededByPlugin(name: Text)
    | NotAdvertised(service: Text)
    | OutsideRange(service: Text, version: nat)

  datatype Outcome = Agreed(tuple: Tuple) | Incompatible(axis: Axis)

  /** "shm" */
  const SHM: Text := [115, 104, 109]

  // ---------------------------------------------------------------- what each axis means

  predicate SpeaksProtocol(o: Offer, v: nat) {
    o.protocolMin <= v <= o.protocolMax
  }

  predicate FirstCommon(a: seq<Text>, b: seq<Text>, x: Text) {
    x in a && x in b && forall y :: y in a && y in b ==> Leq(x, y)
  }

  predicate NothingCommon<T(==)>(a: seq<T>, b: seq<T>) {
    forall y :: y in a ==> y !in b
  }

  predicate HighestCommon(a: seq<nat>, b: seq<nat>, v: nat) {
    v in a && v in b && forall w :: w in a && w in b ==> w <= v
  }

  function Names(flags: seq<Flag>): set<Text> {
    set f | f in flags :: f.name
  }

  /** Every flag this side requires is one the other side offers. */
  predicate NeedsMet(flags: seq<Flag>, other: seq<Flag>) {
    forall f :: f in flags && f.required ==> f.name in Names(other)
  }

  /** Every flag either side offered, true exactly when both did. */
  function Resolution(host: seq<Flag>, plugin: seq<Flag>): map<Text, bool> {
    Resolved(Names(host), Names(plugin))
  }

  function Resolved(host: set<Text>, plugin: set<Text>): map<Text, bool> {
    map n | n in host + plugin :: n in host && n in plugin
  }

  /** The advertised versions, a later entry replacing an earlier one of the same name. */
  function Advertised(adverts: seq<Advert>): map<Text, nat> {
    if adverts == [] then map[]
    else
      var last := adverts[|adverts| - 1];
      Advertised(adverts[..|adverts| - 1])[last.service := last.version]
  }

  predicate Met(r: Requirement, have: map<Text, nat>) {
    r.service in have && r.lo <= have[r.service] <= r.hi
  }

  predicate ServicesMet(required: seq<Requirement>, have: map<Text, nat>) {
    forall r :: r in required ==> Met(r, have)
  }

  // ---------------------------------------------------------------- what an agreement means

  predicate IsLayout(host: Offer, plugin: Offer, transport: Text, layout: nat) {
    if transport == SHM then HighestCommon(host.layouts, plugin.layouts, layout) else layout == 0
  }

  /** The tuple both sides are bound to: best common choice on every axis, no need unmet. */
  predicate IsAgreement(host: Offer, plugin: Offer, adverts: seq<Advert>, t: Tuple) {
    && SpeaksProtocol(host, t.protocol) && SpeaksProtocol(plugin, t.protocol)
    && !(SpeaksProtocol(host, t.protocol + 1) && SpeaksProtocol(plugin, t.protocol + 1))
    && FirstCommon(host.transports, plugin.transports, t.transport)
    && IsLayout(host, plugin, t.transport, t.layout)
    && FirstCommon(host.codecs, plugin.codecs, t.codec)
    && NeedsMet(host.features, plugin.features) && NeedsMet(plugin.features, host.features)
    && t.features == Resolution(host.features, plugin.features)
    && ServicesMet(host.services, Advertised(adverts))
  }

  predicate ProtocolsMeet(host: Offer, plugin: Offer) {
    host.protocolMin <= host.protocolMax && plugin.protocolMin <= plugin.protocolMax
    && host.protocolMin <= plugin.protocolMax && plugin.protocolMin <= host.protocolMax
  }

  /** An shm handshake that shares no layout version. */
  predicate LayoutsMiss(host: Offer, plugin: Offer) {
    FirstCommon(host.transports, plugin.transports, SHM) && NothingCommon(host.layouts, plugin.layouts)
  }

  /** The axis that fails, every earlier one having passed. */
  predicate FirstFailure(host: Offer, plugin: Offer, adverts: seq<Advert>, axis: Axis) {
    var transportsMeet := !NothingCommon(host.transports, plugin.transports);
    var codecsMeet := !NothingCommon(host.codecs, plugin.codecs);
    var carried := ProtocolsMeet(host, plugin) && transportsMeet && !LayoutsMiss(host, plugin);
    var featured := NeedsMet(host.features, plugin.features) && NeedsMet(plugin.features, host.features);
    match axis
    case ProtocolRange => !ProtocolsMeet(host, plugin)
    case NoTransport => ProtocolsMeet(host, plugin) && !transportsMeet
    case NoLayout => ProtocolsMeet(host, plugin) && transportsMeet && LayoutsMiss(host, plugin)
    case NoCodec => carried && !codecsMeet
    case NeededByHost(n) => carried && codecsMeet && Flag(n, true) in host.features && n !in Names(plugin.features)
    case NeededByPlugin(n) =>
      && carried && codecsMeet && NeedsMet(host.features, plugin.features)
      && Flag(n, true) in plugin.features && n !in Names(host.features)
    case NotAdvertised(service) =>
      && carried && codecsMeet && featured
      && service !in Advertised(adverts) && exists r :: r in host.services && r.service == service
    case OutsideRange(service, version) =>
      && carried && codecsMeet && featured
      && service in Advertised(adverts) && Advertised(adverts)[service] == version
      && exists r :: r in host.services && r.service == service && !(r.lo <= version <= r.hi)
  }

  // ---------------------------------------------------------------- the loops

  /** The entries of `a` that are also in `b`, in order. */
  method CommonEntries(a: seq<Text>, b: seq<Text>) returns (common: seq<Text>)
    ensures forall x :: x in common <==> x in a && x in b
  {
    common := [];
    for i := 0 to |a|
      invariant forall x :: x in common <==> x in a[..i] && x in b
    {
      assert a[..i + 1] == a[..i] + [a[i]];
      if a[i] in b {
        common := common + [a[i]];
      }
    }
    assert a[..|a|] == a;
  }

  /** The head of the sorted list. */
  method Smallest(common: seq<Text>) returns (least: Text)
    requires common != []
    ensures least in common && forall y :: y in common ==> Leq(least, y)
  {
    least := common[0];
    LeqReflexive(least);
    for i := 1 to |common|
      invariant least in common
      invariant forall j :: 0 <= j < i ==> Leq(least, common[j])
    {
      LeqTotal(least, common[i]);
      if !Leq(least, common[i]) {
        forall j | 0 <= j < i
          ensures Leq(common[i], common[j])
        {
          LeqTransitive(common[i], least, common[j]);
        }
        LeqReflexive(common[i]);
        least := common[i];
      }
    }
  }

  method ChooseCommon(a: seq<Text>, b: seq<Text>) returns (r: Option<Text>)
    ensures r.None? ==> NothingCommon(a, b)
    ensures r.Some? ==> FirstCommon(a, b, r.value)
  {
    var common := CommonEntries(a, b);
    if common == [] {
      return None;
    }
    var least := Smallest(common);
    return Some(least);
  }

  method ChooseLayout(a: seq<nat>, b: seq<nat>) returns (r: Option<nat>)
    ensures r.None? ==> NothingCommon(a, b)
    ensures r.Some? ==> HighestCommon(a, b, r.value)
  {
    r := None;
    for i := 0 to |a|
      invariant r.None? ==> forall j :: 0 <= j < i ==> a[j] !in b
      invariant r.Some? ==> r.value in a && r.value in b && forall j :: 0 <= j < i && a[j] in b ==> a[j] <= r.value
    {
      if a[i] in b && (r.None? || a[i] > r.value) {
        r := Some(a[i]);
      }
    }
  }

  /** The first flag this side requires and the other does not offer. */
  method UnmetNeed(flags: seq<Flag>, other: seq<Flag>) returns (r: Option<Text>)
    ensures r.None? ==> NeedsMet(flags, other)
    ensures r.Some? ==> Flag(r.value, true) in flags && r.value !in Names(other)
  {
    for i := 0 to |flags|
      invariant forall j :: 0 <= j < i && flags[j].required ==> flags[j].name in Names(other)
    {
      if flags[i].required && flags[i].name !in Names(other) {
        return Some(flags[i].name);
      }
    }
    return None;
  }

  /** The host's flags, walked in whatever order the map yields. */
  method ResolveHostFlags(host: set<Text>, plugin: set<Text>) returns (resolved: map<Text, bool>)
    ensures forall n :: n in resolved <==> n in host
    ensures forall n :: n in resolved ==> resolved[n] == (n in plugin)
  {
    resolved := map[];
    var rest := host;
    while rest != {}
      invariant forall n :: n in host <==> n in rest || n in resolved
      invariant forall n :: n in resolved ==> resolved[n] == (n in plugin)
      decreases |rest|
    {
      var n :| n in rest;
      resolved := resolved[n := n in plugin];
      rest := rest - {n};
    }
  }

  /** The plugin's flags the host did not offer resolve to false. */
  method ResolveFeatures(host: set<Text>, plugin: set<Text>) returns (resolved: map<Text, bool>)
    ensures resolved == Resolved(host, plugin)
  {
    resolved := ResolveHostFlags(host, plugin);
    var rest := plugin;
    while rest != {}
      invariant forall n :: n in host || n in plugin <==> n in rest || n in resolved
      invariant forall n :: n in rest ==> n in plugin
      invariant forall n :: n in resolved ==> resolved[n] == (n in host && n in plugin)
      invariant forall n :: n in host ==> n in resolved
      decreases |rest|
    {
      var n :| n in rest;
      if n !in resolved {
        resolved := resolved[n := false];
      }
      rest := rest - {n};
    }
  }

  method IndexAdverts(adverts: seq<Advert>) returns (have: map<Text, nat>)
    ensures have == Advertised(adverts)
  {
    have := map[];
    for i := 0 to |adverts|
      invariant have == Advertised(adverts[..i])
    {
      assert adverts[..i + 1][..i] == adverts[..i];
      have := have[adverts[i].service := adverts[i].version];
    }
    assert adverts[..|adverts|] == adverts;
  }

  method CheckServices(required: seq<Requirement>, adverts: seq<Advert>) returns (r: Option<Axis>)
    ensures r.None? ==> ServicesMet(required, Advertised(adverts))
    ensures r.Some? ==> UnmetService(required, Advertised(adverts), r.value)
  {
    var have := IndexAdverts(adverts);
    for i := 0 to |required|
      invariant forall j :: 0 <= j < i ==> Met(required[j], have)
    {
      var q := required[i];
      if q.service !in have {
        return Some(NotAdvertised(q.service));
      }
      if have[q.service] < q.lo || have[q.service] > q.hi {
        return Some(OutsideRange(q.service, have[q.service]));
      }
    }
    return None;
  }

  predicate UnmetService(required: seq<Requirement>, have: map<Text, nat>, axis: Axis) {
    match axis
    case NotAdvertised(service) => service !in have && exists r :: r in required && r.service == service
    case OutsideRange(service, version) =>
      && service in have && have[service] == version
      && exists r :: r in required && r.service == service && !(r.lo <= version <= r.hi)
    case _ => false
  }

  method Negotiate(host: Offer, plugin: Offer, adverts: seq<Advert>) returns (r: Outcome)
    ensures r.Agreed? ==> IsAgreement(host, plugin, adverts, r.tuple)
    ensures r.Incompatible? ==> FirstFailure(host, plugin, adverts, r.axis)
  {
    var lo := if host.protocolMin >= plugin.protocolMin then host.protocolMin else plugin.protocolMin;
    var hi := if host.protocolMax <= plugin.protocolMax then host.protocolMax else plugin.protocolMax;
    if lo > hi {
      return Incompatible(ProtocolRange);
    }
    var transport := ChooseCommon(host.transports, plugin.transports);
    if transport.None? {
      return Incompatible(NoTransport);
    }
    var layout := 0;
    if transport.value == SHM {
      var common := ChooseLayout(host.layouts, plugin.layouts);
      if common.None? {
        return Incompatible(NoLayout);
      }
      layout := common.value;
    }
    assert !LayoutsMiss(host, plugin) by {
      OneFirstCommon(host.transports, plugin.transports);
    }
    var codec := ChooseCommon(host.codecs, plugin.codecs);
    if codec.None? {
      return Incompatible(NoCodec);
    }
    r := NegotiateRest(host, plugin, adverts, hi, transport.value, layout, codec.value);
  }

  /** The feature and service axes, the others being settled. */
  method NegotiateRest(host: Offer, plugin: Offer, adverts: seq<Advert>,
                       protocol: nat, transport: Text, layout: nat, codec: Text)
    returns (r: Outcome)
    ensures r.Agreed? ==>
              && r.tuple == Tuple(protocol, transport, layout, Resolution(host.features, plugin.features), codec)
              && NeedsMet(host.features, plugin.features) && NeedsMet(plugin.features, host.features)
              && ServicesMet(host.services, Advertised(adverts))
    ensures r.Incompatible? ==>
              match r.axis
              case NeededByHost(n) => Flag(n, true) in host.features && n !in Names(plugin.features)
              case NeededByPlugin(n) =>
                && NeedsMet(host.features, plugin.features)
                && Flag(n, true) in plugin.features && n !in Names(host.features)
              case _ =>
                && NeedsMet(host.features, plugin.features) && NeedsMet(plugin.features, host.features)
                && UnmetService(host.services, Advertised(adverts), r.axis)
  {
    var need := UnmetNeed(host.features, plugin.features);
    if need.Some? {
      return Incompatible(NeededByHost(need.value));
    }
    need := UnmetNeed(plugin.features, host.features);
    if need.Some? {
      return Incompatible(NeededByPlugin(need.value));
    }
    var features := ResolveFeatures(Names(host.features), Names(plugin.features));
    var unmet := CheckServices(host.services, adverts);
    if unmet.Some? {
      return Incompatible(unmet.value);
    }
    return Agreed(Tuple(protocol, transport, layout, features, codec));
  }

  /** There is one lexicographically first common entry. */
  lemma OneFirstCommon(a: seq<Text>, b: seq<Text>)
    ensures forall x, y :: FirstCommon(a, b, x) && FirstCommon(a, b, y) ==> x == y
  {
    forall x, y | FirstCommon(a, b, x) && FirstCommon(a, b, y)
      ensures x == y
    {
      LeqAntisymmetric(x, y);
    }
  }

  // ---------------------------------------------------------------- duplicates

  predicate NoDuplicates(adverts: seq<Advert>) {
    forall i, j :: 0 <= i < j < |adverts| ==> adverts[i].service != adverts[j].service
  }

  method FirstDuplicate(adverts: seq<Advert>) returns (r: Option<Text>)
    ensures r.None? <==> NoDuplicates(adverts)
    ensures r.Some? ==> exists i, j :: 0 <= i < j < |adverts| && adverts[i].service == adverts[j].service == r.value
  {
    var seen: set<Text> := {};
    for k := 0 to |adverts|
      invariant NoDuplicates(adverts[..k])
      invariant forall n :: n in seen <==> exists i :: 0 <= i < k && adverts[i].service == n
    {
      if adverts[k].service in seen {
        return Some(adverts[k].service);
      }
      seen := seen + {adverts[k].service};
    }
    return None;
  }
}
