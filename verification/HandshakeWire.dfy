/**
  The handshake on the wire: offers and tuples as control messages, the host's check of an
  acknowledged tuple, rejection replies, and what the two sides can rely on.
*/
module HandshakeWire {
  import opened Common
  import opened Utf8
  import opened Handshake

  datatype WireFlag = WireFlag(name: Text, required: bool, supported: bool)

  datatype Hello = Hello(
    protocolMin: nat, protocolMax: nat,
    transports: seq<Text>, codecs: seq<Text>, layouts: seq<nat>,
    features: seq<WireFlag>, services: seq<Requirement>, nonce: nat)

  datatype Identity = Identity(name: Text, semver: Text, digest: Text)

  datatype HelloAck = HelloAck(
    protocol: nat, transport: Text, layout: nat, codec: Text,
    features: seq<WireFlag>, adverts: seq<Advert>, offer: Hello,
    nonce: nat, identity: Identity, reason: Text)

  const NO_IDENTITY := Identity([], [], [])

  // ---------------------------------------------------------------- offers

  /** The offer a hello carries; the supported bit is not part of it. */
  function OfferOf(h: Hello): Offer {
    Offer(h.protocolMin, h.protocolMax, h.transports, h.codecs, h.layouts,
          seq(|h.features|, i requires 0 <= i < |h.features| => Flag(h.features[i].name, h.features[i].required)),
          h.services)
  }

  /** An offer put on the wire is the offer read off it. */
  method OfferToHello(o: Offer, nonce: nat) returns (h: Hello)
    ensures OfferOf(h) == o && h.nonce == nonce
    ensures forall f :: f in h.features ==> !f.supported
  {
    var flags: seq<WireFlag> := [];
    for i := 0 to |o.features|
      invariant |flags| == i
      invariant forall j :: 0 <= j < i ==> flags[j] == WireFlag(o.features[j].name, o.features[j].required, false)
    {
      flags := flags + [WireFlag(o.features[i].name, o.features[i].required, false)];
    }
    var services: seq<Requirement> := [];
    for i := 0 to |o.services|
      invariant services == o.services[..i]
    {
      services := services + [o.services[i]];
    }
    h := Hello(o.protocolMin, o.protocolMax, o.transports, o.codecs, o.layouts, flags, services, nonce);
    assert OfferOf(h).features == o.features;
  }

  method HelloToOffer(h: Hello) returns (o: Offer)
    ensures o == OfferOf(h)
  {
    var flags: seq<Flag> := [];
    for i := 0 to |h.features|
      invariant |flags| == i
      invariant forall j :: 0 <= j < i ==> flags[j] == Flag(h.features[j].name, h.features[j].required)
    {
      flags := flags + [Flag(h.features[i].name, h.features[i].required)];
    }
    var services: seq<Requirement> := [];
    for i := 0 to |h.services|
      invariant services == h.services[..i]
    {
      services := services + [h.services[i]];
    }
    o := Offer(h.protocolMin, h.protocolMax, h.transports, h.codecs, h.layouts, flags, services);
    assert o.features == OfferOf(h).features;
  }

  // ---------------------------------------------------------------- acknowledgements

  /** The resolution a flag list spells, a later flag replacing an earlier one. */
  function FlagMap(flags: seq<WireFlag>): map<Text, bool> {
    if flags == [] then map[]
    else
      var last := flags[|flags| - 1];
      FlagMap(flags[..|flags| - 1])[last.name := last.supported]
  }

  predicate HasName(flags: seq<WireFlag>, n: Text) {
    exists i :: 0 <= i < |flags| && flags[i].name == n
  }

  /** The list spells the map once per name, in ascending order. */
  predicate Spells(flags: seq<WireFlag>, m: map<Text, bool>) {
    && (forall i, j :: 0 <= i < j < |flags| ==> Less(flags[i].name, flags[j].name))
    && (forall i :: 0 <= i < |flags| ==>
          flags[i].name in m && flags[i] == WireFlag(flags[i].name, false, m[flags[i].name]))
    && (forall n :: n in m ==> HasName(flags, n))
  }

  function TupleOf(ack: HelloAck): Tuple {
    Tuple(ack.protocol, ack.transport, ack.layout, FlagMap(ack.features), ack.codec)
  }

  /** The acknowledgement a plugin builds for an agreed tuple. */
  predicate IsAck(ack: HelloAck, t: Tuple, plugin: Offer, adverts: seq<Advert>) {
    && ack.protocol == t.protocol && ack.transport == t.transport
    && ack.layout == t.layout && ack.codec == t.codec
    && Spells(ack.features, t.features)
    && ack.adverts == adverts && OfferOf(ack.offer) == plugin && ack.reason == []
  }

  method Least(names: set<Text>) returns (least: Text)
    requires names != {}
    ensures least in names && forall n :: n in names ==> Leq(least, n)
  {
    least :| least in names;
    LeqReflexive(least);
    var rest := names - {least};
    while rest != {}
      invariant least in names && rest <= names
      invariant forall n :: n in names && n !in rest ==> Leq(least, n)
      decreases |rest|
    {
      var m :| m in rest;
      LeqTotal(least, m);
      if !Leq(least, m) {
        forall n | n in names && n !in rest
          ensures Leq(m, n)
        {
          LeqTransitive(m, least, n);
        }
        LeqReflexive(m);
        least := m;
      }
      rest := rest - {m};
    }
  }

  /** The map's names collected in any order and sorted, one flag each. */
  method SpellFeatures(m: map<Text, bool>) returns (flags: seq<WireFlag>)
    ensures Spells(flags, m)
  {
    flags := [];
    var rest := m.Keys;
    while rest != {}
      invariant rest <= m.Keys
      invariant forall i, j :: 0 <= i < j < |flags| ==> Less(flags[i].name, flags[j].name)
      invariant forall i :: 0 <= i < |flags| ==>
                  flags[i].name in m && flags[i] == WireFlag(flags[i].name, false, m[flags[i].name])
      invariant forall n :: n in m ==> n in rest || HasName(flags, n)
      invariant forall i, n :: 0 <= i < |flags| && n in rest ==> Less(flags[i].name, n)
      decreases |rest|
    {
      var least := Least(rest);
      var longer := flags + [WireFlag(least, false, m[least])];
      assert longer[|flags|].name == least;
      forall n | HasName(flags, n)
        ensures HasName(longer, n)
      {
        var i :| 0 <= i < |flags| && flags[i].name == n;
        assert longer[i].name == n;
      }
      flags := longer;
      rest := rest - {least};
    }
  }

  method TupleToHelloAck(t: Tuple, nonce: nat, identity: Identity, adverts: seq<Advert>, plugin: Offer)
    returns (ack: HelloAck)
    ensures IsAck(ack, t, plugin, adverts) && ack.nonce == nonce && ack.identity == identity
  {
    var offer := OfferToHello(plugin, 0);
    var flags := SpellFeatures(t.features);
    ack := HelloAck(t.protocol, t.transport, t.layout, t.codec, flags, adverts, offer, nonce, identity, []);
  }

  method HelloAckToTuple(ack: HelloAck) returns (t: Tuple)
    ensures t == TupleOf(ack)
  {
    var features := map[];
    for i := 0 to |ack.features|
      invariant features == FlagMap(ack.features[..i])
    {
      assert ack.features[..i + 1][..i] == ack.features[..i];
      features := features[ack.features[i].name := ack.features[i].supported];
    }
    assert ack.features[..|ack.features|] == ack.features;
    t := Tuple(ack.protocol, ack.transport, ack.layout, features, ack.codec);
  }

  // ---------------------------------------------------------------- the host's check

  datatype Verdict = Accepted(tuple: Tuple) | Repeated(service: Text) | Refused(axis: Axis) | Mismatched

  /** What the host may accept: one advert per service, and the acknowledged tuple is the
      agreement of its own offer with the echoed one. */
  predicate Acceptable(host: Offer, ack: HelloAck) {
    NoDuplicates(ack.adverts) && IsAgreement(host, OfferOf(ack.offer), ack.adverts, TupleOf(ack))
  }

  method ValidateAcknowledgedTuple(host: Offer, ack: HelloAck) returns (v: Verdict)
    ensures v.Accepted? <==> Acceptable(host, ack)
    ensures v.Accepted? ==> v.tuple == TupleOf(ack)
    ensures v.Repeated? <==> !NoDuplicates(ack.adverts)
    ensures v.Refused? ==> FirstFailure(host, OfferOf(ack.offer), ack.adverts, v.axis)
    ensures v.Mismatched? ==> exists t :: t != TupleOf(ack) && IsAgreement(host, OfferOf(ack.offer), ack.adverts, t)
  {
    var acked := HelloAckToTuple(ack);
    var plugin := HelloToOffer(ack.offer);
    var dup := FirstDuplicate(ack.adverts);
    if dup.Some? {
      return Repeated(dup.value);
    }
    var r := Negotiate(host, plugin, ack.adverts);
    if r.Incompatible? {
      if Acceptable(host, ack) {
        AgreementRulesOutFailure(host, plugin, ack.adverts, acked, r.axis);
      }
      return Refused(r.axis);
    }
    if r.tuple != acked {
      if Acceptable(host, ack) {
        AgreementIsUnique(host, plugin, ack.adverts, r.tuple, acked);
      }
      return Mismatched;
    }
    return Accepted(r.tuple);
  }

  /** Two offers and the adverts admit at most one agreement. */
  lemma AgreementIsUnique(host: Offer, plugin: Offer, adverts: seq<Advert>, t: Tuple, u: Tuple)
    requires IsAgreement(host, plugin, adverts, t) && IsAgreement(host, plugin, adverts, u)
    ensures t == u
  {
    OneFirstCommon(host.transports, plugin.transports);
    OneFirstCommon(host.codecs, plugin.codecs);
    assert t.transport == u.transport && t.codec == u.codec;
    assert t.protocol == u.protocol;
    assert t.layout == u.layout;
  }

  /** An agreement and a refusal exclude each other on every axis. */
  lemma AgreementRulesOutFailure(host: Offer, plugin: Offer, adverts: seq<Advert>, t: Tuple, axis: Axis)
    requires IsAgreement(host, plugin, adverts, t)
    ensures !FirstFailure(host, plugin, adverts, axis)
  {
    OneFirstCommon(host.transports, plugin.transports);
  }

  // ---------------------------------------------------------------- spelling

  lemma {:induction false} FlagMapAt(flags: seq<WireFlag>, i: nat)
    requires i < |flags| && forall j :: i < j < |flags| ==> flags[j].name != flags[i].name
    ensures flags[i].name in FlagMap(flags) && FlagMap(flags)[flags[i].name] == flags[i].supported
  {
    var n := |flags| - 1;
    if i < n {
      FlagMapAt(flags[..n], i);
    }
  }

  lemma {:induction false} FlagMapNames(flags: seq<WireFlag>, name: Text)
    requires name in FlagMap(flags)
    ensures HasName(flags, name)
  {
    var n := |flags| - 1;
    if flags[n].name != name {
      FlagMapNames(flags[..n], name);
      var i :| 0 <= i < n && flags[..n][i].name == name;
      assert flags[i].name == name;
    }
  }

  /** Reading back a spelled resolution gives that resolution. */
  lemma SpellingReadsBack(flags: seq<WireFlag>, m: map<Text, bool>)
    requires Spells(flags, m)
    ensures FlagMap(flags) == m
  {
    forall i | 0 <= i < |flags|
      ensures flags[i].name in FlagMap(flags) && FlagMap(flags)[flags[i].name] == m[flags[i].name]
    {
      FlagMapAt(flags, i);
    }
    forall name | name in FlagMap(flags)
      ensures name in m
    {
      FlagMapNames(flags, name);
    }
    assert forall name :: name in m ==> name in FlagMap(flags) && FlagMap(flags)[name] == m[name];
    assert FlagMap(flags).Keys == m.Keys;
  }

  // ---------------------------------------------------------------- theorems

  /** An honest plugin's acknowledgement says exactly the tuple it agreed to, and the host
      accepts it exactly when no service is advertised twice. */
  lemma HonestAckIsAccepted(host: Offer, plugin: Offer, adverts: seq<Advert>, t: Tuple, ack: HelloAck)
    requires IsAgreement(host, plugin, adverts, t) && IsAck(ack, t, plugin, adverts)
    ensures TupleOf(ack) == t
    ensures Acceptable(host, ack) <==> NoDuplicates(adverts)
  {
    SpellingReadsBack(ack.features, t.features);
  }

  /** Whatever a peer acknowledges, an accepted tuple is the one the host's own negotiation
      reaches, and no other. */
  lemma AcceptedIsTheHostsOwn(host: Offer, ack: HelloAck, t: Tuple)
    requires Acceptable(host, ack)
    ensures IsAgreement(host, OfferOf(ack.offer), ack.adverts, t) <==> t == TupleOf(ack)
  {
    if IsAgreement(host, OfferOf(ack.offer), ack.adverts, t) {
      AgreementIsUnique(host, OfferOf(ack.offer), ack.adverts, t, TupleOf(ack));
    }
  }

  /** The same offer up to the order and repetition of its lists. */
  ghost predicate SameOffer(o: Offer, p: Offer) {
    && o.protocolMin == p.protocolMin && o.protocolMax == p.protocolMax
    && (forall x :: x in o.transports <==> x in p.transports)
    && (forall x :: x in o.codecs <==> x in p.codecs)
    && (forall x :: x in o.layouts <==> x in p.layouts)
    && (forall x :: x in o.features <==> x in p.features)
    && (forall x :: x in o.services <==> x in p.services)
  }

  lemma SameNames(a: seq<Flag>, b: seq<Flag>)
    requires forall f :: f in a <==> f in b
    ensures Names(a) == Names(b)
  {
  }

  /** The agreement does not depend on the order either side lists anything in. */
  lemma OrderOfOffersDoesNotMatter(host: Offer, host': Offer, plugin: Offer, plugin': Offer,
                                   adverts: seq<Advert>, t: Tuple)
    requires SameOffer(host, host') && SameOffer(plugin, plugin') && IsAgreement(host, plugin, adverts, t)
    ensures IsAgreement(host', plugin', adverts, t)
  {
    SameNames(host.features, host'.features);
    SameNames(plugin.features, plugin'.features);
  }

  /** No service is advertised at two versions. */
  predicate Consistent(adverts: seq<Advert>) {
    forall a, b :: a in adverts && b in adverts && a.service == b.service ==> a == b
  }

  lemma {:induction false} AdvertisedMeans(adverts: seq<Advert>)
    ensures forall n :: n in Advertised(adverts) ==> Advert(n, Advertised(adverts)[n]) in adverts
    ensures forall a :: a in adverts ==> a.service in Advertised(adverts)
  {
    if adverts != [] {
      var n := |adverts| - 1;
      AdvertisedMeans(adverts[..n]);
      assert adverts == adverts[..n] + [adverts[n]];
    }
  }

  lemma OrderOfAdvertsDoesNotMatter(adverts: seq<Advert>, other: seq<Advert>)
    requires Consistent(adverts) && (forall a :: a in adverts <==> a in other)
    ensures Advertised(adverts) == Advertised(other)
  {
    AdvertisedMeans(adverts);
    AdvertisedMeans(other);
    var m, k := Advertised(adverts), Advertised(other);
    forall n | n in m
      ensures n in k && k[n] == m[n]
    {
      assert Advert(n, m[n]) in other;
      assert Advert(n, k[n]) in adverts;
    }
    forall n | n in k
      ensures n in m
    {
      assert Advert(n, k[n]) in adverts;
    }
    assert m.Keys == k.Keys;
  }

  /** The list with entry i moved to the end. */
  function MovedLast(adverts: seq<Advert>, i: nat): (r: seq<Advert>)
    requires i < |adverts|
    ensures |r| == |adverts| && r[|r| - 1] == adverts[i]
  {
    adverts[..i] + adverts[i + 1..] + [adverts[i]]
  }

  lemma MovedLastIsAReordering(adverts: seq<Advert>, i: nat)
    requires i < |adverts|
    ensures multiset(MovedLast(adverts, i)) == multiset(adverts)
  {
    assert adverts == adverts[..i] + [adverts[i]] + adverts[i + 1..];
  }

  /** Reordering the adverts leaves every verdict alone exactly when no service is advertised
      at two versions; otherwise the last entry decides, and some host is served under one
      order and refused under another. */
  lemma OrderMattersExactlyWhenVersionsClash(adverts: seq<Advert>)
    ensures Consistent(adverts) <==>
            (forall one, two :: multiset(one) == multiset(adverts) && multiset(two) == multiset(adverts) ==>
               forall r: Requirement :: Met(r, Advertised(one)) <==> Met(r, Advertised(two)))
  {
    if Consistent(adverts) {
      forall one, two | multiset(one) == multiset(adverts) && multiset(two) == multiset(adverts)
        ensures forall r: Requirement :: Met(r, Advertised(one)) <==> Met(r, Advertised(two))
      {
        SameMembers(adverts, one);
        SameMembers(adverts, two);
        OrderOfAdvertsDoesNotMatter(adverts, one);
        OrderOfAdvertsDoesNotMatter(adverts, two);
      }
    } else {
      var a, b :| a in adverts && b in adverts && a.service == b.service && a != b;
      VersionsClash(adverts, a, b);
    }
  }

  lemma SameMembers(a: seq<Advert>, b: seq<Advert>)
    requires multiset(a) == multiset(b)
    ensures forall x :: x in a <==> x in b
  {
    forall x
      ensures x in a <==> x in b
    {
      assert x in a <==> x in multiset(a);
      assert x in b <==> x in multiset(b);
    }
  }

  lemma VersionsClash(adverts: seq<Advert>, a: Advert, b: Advert)
    requires a in adverts && b in adverts && a.service == b.service && a != b
    ensures exists one, two, r: Requirement ::
              && multiset(one) == multiset(adverts) && multiset(two) == multiset(adverts)
              && Met(r, Advertised(one)) && !Met(r, Advertised(two))
  {
    var i :| 0 <= i < |adverts| && adverts[i] == a;
    var j :| 0 <= j < |adverts| && adverts[j] == b;
    MovedLastIsAReordering(adverts, i);
    MovedLastIsAReordering(adverts, j);
    var one, two := MovedLast(adverts, i), MovedLast(adverts, j);
    var r := Requirement(a.service, a.version, a.version);
    assert Met(r, Advertised(one)) && !Met(r, Advertised(two));
  }

  /** One resolution has one spelling, so the acknowledgement does not depend on the order a
      map happens to be walked in. */
  lemma {:induction false} SpellingIsUnique(a: seq<WireFlag>, b: seq<WireFlag>, m: map<Text, bool>)
    requires Spells(a, m) && Spells(b, m)
    ensures a == b
    decreases |a|
  {
    NothingToSpell(a, m);
    NothingToSpell(b, m);
    if a != [] {
      FirstFlagIsLeast(a, b, m);
      SpellsTail(a, m);
      SpellsTail(b, m);
      SpellingIsUnique(a[1..], b[1..], m - {a[0].name});
      assert a == [a[0]] + a[1..] && b == [b[0]] + b[1..];
    }
  }

  lemma NothingToSpell(a: seq<WireFlag>, m: map<Text, bool>)
    requires Spells(a, m)
    ensures a == [] <==> m == map[]
  {
    if a != [] {
      assert a[0].name in m;
    } else {
      assert forall n :: n in m ==> HasName(a, n);
      assert m.Keys == {};
    }
  }

  lemma FirstFlagIsLeast(a: seq<WireFlag>, b: seq<WireFlag>, m: map<Text, bool>)
    requires Spells(a, m) && Spells(b, m) && a != [] && b != []
    ensures a[0] == b[0]
  {
    assert HasName(b, a[0].name) && HasName(a, b[0].name);
    var i :| 0 <= i < |b| && b[i].name == a[0].name;
    var j :| 0 <= j < |a| && a[j].name == b[0].name;
    if i > 0 && j > 0 {
      assert Less(b[0].name, b[i].name) && Less(a[0].name, a[j].name);
      LeqAntisymmetric(a[0].name, b[0].name);
    }
  }

  lemma SpellsTail(a: seq<WireFlag>, m: map<Text, bool>)
    requires Spells(a, m) && a != []
    ensures Spells(a[1..], m - {a[0].name})
  {
    var rest, t := m - {a[0].name}, a[1..];
    assert forall i :: 0 <= i < |t| ==> t[i] == a[i + 1] && Less(a[0].name, a[i + 1].name);
    forall n | n in rest
      ensures HasName(t, n)
    {
      assert HasName(a, n);
      var i :| 0 <= i < |a| && a[i].name == n;
      assert t[i - 1].name == n;
    }
  }

  // ---------------------------------------------------------------- rejections

  const MAX_REASON := 1024

  /** "control: incompatible handshake (no reason reported)" */
  const GENERIC: Text := [
    99, 111, 110, 116, 114, 111, 108, 58, 32, 105, 110, 99, 111, 109, 112, 97, 116, 105, 98, 108, 101, 32,
    104, 97, 110, 100, 115, 104, 97, 107, 101, 32, 40, 110, 111, 32, 114, 101, 97, 115, 111, 110, 32,
    114, 101, 112, 111, 114, 116, 101, 100, 41]

  function Stated(reason: Text): Text {
    if reason == [] then GENERIC else reason
  }

  method IncompatibleToHelloAck(offer: Offer, adverts: seq<Advert>, reason: Text, nonce: nat) returns (ack: HelloAck)
    ensures Truncated(Stated(reason), MAX_REASON, ack.reason)
    ensures ack.nonce == nonce && ack.adverts == adverts && OfferOf(ack.offer) == offer
  {
    var bounded := Truncate(Stated(reason), MAX_REASON);
    var hello := OfferToHello(offer, 0);
    ack := HelloAck(0, [], 0, [], [], adverts, hello, nonce, NO_IDENTITY, bounded);
  }

  datatype Rejection = Rejection(reason: Text, offer: Offer)

  /** Each advert as the one-version range the host reports it by. */
  function Pinned(adverts: seq<Advert>): seq<Requirement> {
    seq(|adverts|, i requires 0 <= i < |adverts| =>
      Requirement(adverts[i].service, adverts[i].version, adverts[i].version))
  }

  method HelloAckIncompatible(ack: HelloAck) returns (r: Option<Rejection>)
    ensures r.None? <==> ack.reason == []
    ensures r.Some? ==> r.value.reason == ack.reason
    ensures r.Some? ==>
              r.value.offer == OfferOf(ack.offer).(services := OfferOf(ack.offer).services + Pinned(ack.adverts))
  {
    if ack.reason == [] {
      return None;
    }
    var offer := HelloToOffer(ack.offer);
    var services := offer.services;
    for i := 0 to |ack.adverts|
      invariant services == offer.services + Pinned(ack.adverts)[..i]
    {
      services := services + [Requirement(ack.adverts[i].service, ack.adverts[i].version, ack.adverts[i].version)];
    }
    return Some(Rejection(ack.reason, offer.(services := services)));
  }

  /** A refusal is recognised as one exactly when its reason fits or opens with a whole rune;
      otherwise the cut leaves nothing and the reply reads as a success. */
  lemma RejectionIsRecognised(reason: Text, sent: Text)
    requires Truncated(Stated(reason), MAX_REASON, sent)
    ensures sent != [] <==> |reason| <= MAX_REASON || RuneLen(reason) > 0
  {
    TruncatedToNothing(Stated(reason), MAX_REASON, sent);
  }

  /** How the reason Negotiate gives for each axis opens. */
  function Opening(axis: Axis): string {
    match axis
    case ProtocolRange => "protocol range: "
    case NoTransport => "transport: "
    case NoLayout => "layout_version: "
    case NoCodec => "codec: "
    case NeededByHost(_) | NeededByPlugin(_) => "feature "
    case NotAdvertised(_) | OutsideRange(_, _) => "service "
  }

  predicate OpensWith(reason: Text, opening: string) {
    |opening| <= |reason| && forall i :: 0 <= i < |opening| ==> reason[i] as int == opening[i] as int
  }

  /** Whatever names and versions follow, a refusal that states a failed axis is recognised:
      only a caller that invents its own reason can silence one. */
  lemma NegotiatedReasonIsRecognised(axis: Axis, reason: Text, sent: Text)
    requires OpensWith(reason, Opening(axis)) && Truncated(Stated(reason), MAX_REASON, sent)
    ensures sent != []
  {
    var opening := Opening(axis);
    assert 'a' <= opening[0] <= 'z';
    assert reason[0] as int == opening[0] as int;
    RejectionIsRecognised(reason, sent);
  }

  /** A well-formed reason always arrives: whole when it fits, and otherwise well-formed and
      within three bytes of the bound. */
  lemma WellFormedReasonArrives(reason: Text, sent: Text)
    requires Truncated(Stated(reason), MAX_REASON, sent) && Valid(reason) && reason != []
    ensures sent != [] && Valid(sent) && sent <= reason
    ensures sent == reason || MAX_REASON - 3 <= |sent| <= MAX_REASON
  {
    RejectionIsRecognised(reason, sent);
    ValidTextKeepsItsHead(reason, MAX_REASON, sent);
  }

  /** A long reason that opens with a stray continuation byte is cut to nothing. */
  lemma StrayByteSilencesARefusal(sent: Text)
    requires Truncated(seq(1025, i => 0x80), MAX_REASON, sent)
    ensures sent == []
  {
    var reason: Text := seq(1025, i => 0x80);
    assert Stated(reason) == reason && RuneLen(reason) == 0;
    RejectionIsRecognised(reason, sent);
  }
}
