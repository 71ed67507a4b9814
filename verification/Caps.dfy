/** Capability tags: parsing, matching, and the gateway's uplink verdict that uses the same matcher. */
module Caps {
  import opened Core

  const KNOWN_CLASSES: seq<string> := ["env", "tool", "hw", "net", "ext"]

  /** `class:value` or `class:value@v1.v2...`; version None means no '@' was written. */
  datatype Tag = Tag(cls: string, value: string, version: Option<seq<string>>)

  /** The first index of c in s, or |s| when there is none. */
  function IndexOf(s: string, c: char): (i: nat)
    ensures i <= |s|
    ensures i < |s| ==> s[i] == c
    ensures c !in s[..i]
  {
    if s == "" || s[0] == c then 0
    else
      var rest := IndexOf(s[1..], c);
      assert s[..rest + 1] == [s[0]] + s[1..][..rest];
      rest + 1
  }

  function Split(s: string, c: char): (parts: seq<string>)
    ensures |parts| >= 1
    decreases |s|
  {
    var i := IndexOf(s, c);
    if i == |s| then [s] else [s[..i]] + Split(s[i + 1..], c)
  }

  function ParseTag(tag: string): Option<Tag> {
    var i := IndexOf(tag, ':');
    if i == 0 || i == |tag| then None
    else
      var rest := tag[i + 1..];
      var at := IndexOf(rest, '@');
      if at == |rest| then Some(Tag(tag[..i], rest, None))
      else Some(Tag(tag[..i], rest[..at], Some(Split(rest[at + 1..], '.'))))
  }

  predicate IsNumeric(s: string) {
    s != "" && forall i :: 0 <= i < |s| ==> '0' <= s[i] <= '9'
  }

  function NumericValue(s: string): nat
    requires forall i :: 0 <= i < |s| ==> '0' <= s[i] <= '9'
  {
    if s == "" then 0
    else 10 * NumericValue(s[..|s| - 1]) + (s[|s| - 1] as int - '0' as int)
  }

  /** Two version segments agree: as numbers when both are numbers, otherwise literally. */
  predicate SegmentMatch(r: string, o: string) {
    if IsNumeric(r) && IsNumeric(o) then NumericValue(r) == NumericValue(o) else r == o
  }

  predicate VersionMatch(req: seq<string>, own: seq<string>) {
    |req| <= |own| && forall i :: 0 <= i < |req| ==> SegmentMatch(req[i], own[i])
  }

  /** A number without its leading zeros; any other segment as it is written. */
  function Canon(s: string): string {
    if IsNumeric(s) then Trim(s) else s
  }

  function Trim(s: string): (t: string)
    ensures |t| <= |s|
  {
    if |s| > 1 && s[0] == '0' then Trim(s[1..]) else s
  }

  predicate AllDigits(s: string) {
    forall i :: 0 <= i < |s| ==> '0' <= s[i] <= '9'
  }

  /** Leading zeros do not count. */
  lemma {:induction false} TrimValue(s: string)
    requires AllDigits(s) && s != ""
    ensures AllDigits(Trim(s)) && Trim(s) != "" && NumericValue(Trim(s)) == NumericValue(s)
    ensures |Trim(s)| > 1 ==> Trim(s)[0] != '0'
    decreases |s|
  {
    if |s| > 1 && s[0] == '0' {
      ZeroFront(s);
      TrimValue(s[1..]);
    }
  }

  lemma {:induction false} ZeroFront(s: string)
    requires AllDigits(s) && |s| > 0 && s[0] == '0'
    ensures NumericValue(s[1..]) == NumericValue(s)
    decreases |s|
  {
    if |s| > 1 {
      ZeroFront(s[..|s| - 1]);
      assert s[..|s| - 1][1..] == s[1..][..|s| - 2];
    }
  }

  function Power(n: nat): nat {
    if n == 0 then 1 else 10 * Power(n - 1)
  }

  /** A number of n digits that does not begin with a zero lies between two powers of ten. */
  lemma {:induction false} ValueRange(s: string)
    requires AllDigits(s)
    ensures NumericValue(s) < Power(|s|)
    ensures s != "" && s[0] != '0' ==> NumericValue(s) >= Power(|s| - 1)
    decreases |s|
  {
    if s != "" {
      var front := s[..|s| - 1];
      ValueRange(front);
      if s[0] != '0' && |s| > 1 {
        assert front[0] == s[0];
      }
    }
  }

  lemma {:induction false} PowerGrows(m: nat, n: nat)
    requires m <= n
    ensures Power(m) <= Power(n)
    decreases n - m
  {
    if m < n {
      PowerGrows(m, n - 1);
    }
  }

  /** Numbers of the same length are equal exactly when their digits are. */
  lemma {:induction false} SameLength(a: string, b: string)
    requires AllDigits(a) && AllDigits(b) && |a| == |b| && NumericValue(a) == NumericValue(b)
    ensures a == b
    decreases |a|
  {
    if a != "" {
      SameLength(a[..|a| - 1], b[..|b| - 1]);
      assert a == a[..|a| - 1] + [a[|a| - 1]] && b == b[..|b| - 1] + [b[|b| - 1]];
    }
  }

  lemma {:induction false} ShorterIsLess(a: string, b: string)
    requires AllDigits(a) && AllDigits(b) && 0 < |a| < |b| && b[0] != '0'
    ensures NumericValue(a) < NumericValue(b)
  {
    ValueRange(a);
    ValueRange(b);
    PowerGrows(|a|, |b| - 1);
  }

  /** Two segments agree exactly when they are written alike, leading zeros of numbers aside. */
  lemma {:induction false} SegmentMatchIff(a: string, b: string)
    ensures SegmentMatch(a, b) <==> Canon(a) == Canon(b)
  {
    if IsNumeric(a) && IsNumeric(b) {
      TrimValue(a);
      TrimValue(b);
      var x, y := Trim(a), Trim(b);
      if NumericValue(a) == NumericValue(b) {
        if |x| < |y| {
          ShorterIsLess(x, y);
        } else if |y| < |x| {
          ShorterIsLess(y, x);
        } else {
          SameLength(x, y);
        }
      }
    } else if IsNumeric(a) {
      TrimValue(a);
    } else if IsNumeric(b) {
      TrimValue(b);
    }
  }

  function Canons(v: seq<string>): (cs: seq<string>)
    ensures |cs| == |v| && forall i :: 0 <= i < |v| ==> cs[i] == Canon(v[i])
  {
    seq(|v|, i requires 0 <= i < |v| => Canon(v[i]))
  }

  /** A version is met exactly by those that begin with all of its segments, leading zeros of numbers aside. */
  lemma {:induction false} VersionMatchIff(req: seq<string>, own: seq<string>)
    ensures VersionMatch(req, own) <==> Canons(req) <= Canons(own)
  {
    forall i | 0 <= i < |req| && i < |own| ensures SegmentMatch(req[i], own[i]) <==> Canon(req[i]) == Canon(own[i]) {
      SegmentMatchIff(req[i], own[i]);
    }
    if Canons(req) <= Canons(own) {
      forall i | 0 <= i < |req| ensures SegmentMatch(req[i], own[i]) {
        assert Canons(req)[i] == Canons(own)[i];
      }
    }
  }

  /** The early-exit loop over the requested segments. */
  method CompareVersions(req: seq<string>, own: seq<string>) returns (ok: bool)
    ensures ok == VersionMatch(req, own)
  {
    if |own| < |req| {
      return false;
    }
    for i := 0 to |req|
      invariant forall k :: 0 <= k < i ==> SegmentMatch(req[k], own[k])
    {
      if IsNumeric(req[i]) && IsNumeric(own[i]) {
        if NumericValue(req[i]) != NumericValue(own[i]) {
          return false;
        }
      } else if req[i] != own[i] {
        return false;
      }
    }
    return true;
  }

  /** One owned tag satisfies one required tag. */
  predicate TagMatch(required: string, owned: string) {
    var r, p := ParseTag(required), ParseTag(owned);
    && r.Some? && p.Some?
    && p.value.cls == r.value.cls
    && if r.value.cls !in KNOWN_CLASSES then owned == required
       else
         && p.value.value == r.value.value
         && (r.value.version.None? ||
             (p.value.version.Some? && VersionMatch(r.value.version.value, p.value.version.value)))
  }

  predicate MatchOne(required: string, owned: seq<string>) {
    exists i :: 0 <= i < |owned| && TagMatch(required, owned[i])
  }

  /** The loop of matchOne, with its `continue`s and early returns. */
  method FindMatch(required: string, owned: seq<string>) returns (found: bool)
    ensures found == MatchOne(required, owned)
  {
    var r := ParseTag(required);
    if r.None? {
      return false;
    }
    var known := r.value.cls in KNOWN_CLASSES;
    for i := 0 to |owned|
      invariant forall k :: 0 <= k < i ==> !TagMatch(required, owned[k])
    {
      var p := ParseTag(owned[i]);
      if p.None? || p.value.cls != r.value.cls {
        continue;
      }
      if !known {
        if owned[i] == required {
          assert TagMatch(required, owned[i]);
          return true;
        }
        continue;
      }
      if p.value.value != r.value.value {
        continue;
      }
      if r.value.version.None? {
        assert TagMatch(required, owned[i]);
        return true;
      }
      if p.value.version.None? {
        continue;
      }
      var same := CompareVersions(r.value.version.value, p.value.version.value);
      if same {
        assert TagMatch(required, owned[i]);
        return true;
      }
    }
    return false;
  }

  /** The required tags no owned tag satisfies, in order. */
  function Missing(required: seq<string>, owned: seq<string>): (missing: seq<string>)
    ensures missing == [] <==> forall r :: r in required ==> MatchOne(r, owned)
    ensures forall r :: r in missing ==> r in required && !MatchOne(r, owned)
  {
    if required == [] then []
    else (if MatchOne(required[0], owned) then [] else [required[0]]) + Missing(required[1..], owned)
  }

  predicate MatchCaps(required: seq<string>, owned: seq<string>) {
    Missing(required, owned) == []
  }

  /** Reading required_caps: absent is no demand, anything but an array of nonempty strings is malformed. */
  function RequiredCaps(field: Field<seq<string>>): Option<seq<string>> {
    match field
    case Undefined => Some([])
    case Null => None
    case Bad => None
    case Val(caps) => if forall c :: c in caps ==> c != "" then Some(caps) else None
  }

  lemma SegmentMatchTransitive(a: string, b: string, c: string)
    requires SegmentMatch(a, b) && SegmentMatch(b, c)
    ensures SegmentMatch(a, c)
  {
  }

  lemma VersionMatchTransitive(a: seq<string>, b: seq<string>, c: seq<string>)
    requires VersionMatch(a, b) && VersionMatch(b, c)
    ensures VersionMatch(a, c)
  {
    forall i | 0 <= i < |a| ensures SegmentMatch(a[i], c[i]) {
      SegmentMatchTransitive(a[i], b[i], c[i]);
    }
  }

  /** A tag satisfies itself exactly when it parses. */
  lemma MatchReflexive(tag: string)
    ensures TagMatch(tag, tag) <==> ParseTag(tag).Some?
  {
    var p := ParseTag(tag);
    if p.Some? && p.value.version.Some? {
      assert VersionMatch(p.value.version.value, p.value.version.value);
    }
  }

  /** Matching composes: what b offers a, and c offers b, c offers a. */
  lemma MatchTransitive(a: string, b: string, c: string)
    requires TagMatch(a, b) && TagMatch(b, c)
    ensures TagMatch(a, c)
  {
    var pa, pb, pc := ParseTag(a).value, ParseTag(b).value, ParseTag(c).value;
    if pa.cls in KNOWN_CLASSES && pa.version.Some? {
      VersionMatchTransitive(pa.version.value, pb.version.value, pc.version.value);
    }
  }

  // ---- Matching, in terms of the strings ----

  /** A tag as it is written. */
  function Written(cls: string, value: string, version: Option<string>): string {
    cls + ":" + value + if version.Some? then "@" + version.value else ""
  }

  lemma {:induction false} IndexOfSplit(a: string, c: char, b: string)
    requires c !in a
    ensures IndexOf(a + [c] + b, c) == |a|
  {
    var s := a + [c] + b;
    var i := IndexOf(s, c);
    assert s[|a|] == c && forall k :: 0 <= k < |a| ==> s[k] == a[k];
  }

  lemma {:induction false} Recompose(s: string, i: nat)
    requires i < |s|
    ensures s == s[..i] + [s[i]] + s[i + 1..]
  {
  }

  lemma {:induction false} IndexOfNone(a: string, c: char)
    requires c !in a
    ensures IndexOf(a, c) == |a|
  {
  }

  /** Parsing reads back what was written, for every class, value and version that can be told apart. */
  lemma {:induction false} ParseWritten(cls: string, value: string, version: Option<string>)
    requires cls != "" && ':' !in cls && '@' !in value
    ensures ParseTag(Written(cls, value, version)) ==
              Some(Tag(cls, value, if version.Some? then Some(Split(version.value, '.')) else None))
  {
    var rest := value + if version.Some? then "@" + version.value else "";
    var tag := Written(cls, value, version);
    assert tag == cls + [':'] + rest;
    IndexOfSplit(cls, ':', rest);
    assert tag[..|cls|] == cls && tag[|cls| + 1..] == rest;
    if version.Some? {
      assert rest == value + ['@'] + version.value;
      IndexOfSplit(value, '@', version.value);
      assert rest[..|value|] == value && rest[|value| + 1..] == version.value;
    } else {
      assert rest == value;
      IndexOfNone(value, '@');
    }
  }

  /** And whatever parses was written so. */
  lemma {:induction false} ParsedIsWritten(tag: string) returns (cls: string, value: string, version: Option<string>)
    requires ParseTag(tag).Some?
    ensures tag == Written(cls, value, version) && cls != "" && ':' !in cls && '@' !in value
  {
    var i := IndexOf(tag, ':');
    Recompose(tag, i);
    cls := tag[..i];
    value, version := RestIsWritten(tag[i + 1..]);
  }

  lemma {:induction false} RestIsWritten(rest: string) returns (value: string, version: Option<string>)
    ensures rest == value + (if version.Some? then "@" + version.value else "") && '@' !in value
  {
    var at := IndexOf(rest, '@');
    value := rest[..at];
    if at < |rest| {
      Recompose(rest, at);
      version := Some(rest[at + 1..]);
    } else {
      version := None;
    }
  }

  /** A known class's tag without a version is met by the tag itself, under any version or none, and by nothing else. */
  lemma {:induction false} UnversionedIff(cls: string, value: string, owned: string)
    requires cls in KNOWN_CLASSES && cls != "" && ':' !in cls && '@' !in value
    ensures TagMatch(Written(cls, value, None), owned) <==>
              owned == Written(cls, value, None) || exists v :: owned == Written(cls, value, Some(v))
  {
    ParseWritten(cls, value, None);
    if ParseTag(owned).Some? {
      var c, x, v := ParsedIsWritten(owned);
      ParseWritten(c, x, v);
      if v.Some? {
        assert owned == Written(c, x, Some(v.value));
      }
    }
    if exists v :: owned == Written(cls, value, Some(v)) {
      var v :| owned == Written(cls, value, Some(v));
      ParseWritten(cls, value, Some(v));
    }
  }

  /** With a version, by the tags of its value whose version begins with all of its segments. */
  lemma {:induction false} VersionedIff(cls: string, value: string, version: string, owned: string)
    requires cls in KNOWN_CLASSES && cls != "" && ':' !in cls && '@' !in value
    ensures TagMatch(Written(cls, value, Some(version)), owned) <==>
              exists v :: owned == Written(cls, value, Some(v)) && Canons(Split(version, '.')) <= Canons(Split(v, '.'))
  {
    ParseWritten(cls, value, Some(version));
    if TagMatch(Written(cls, value, Some(version)), owned) {
      var c, x, v := ParsedIsWritten(owned);
      ParseWritten(c, x, v);
      VersionMatchIff(Split(version, '.'), Split(v.value, '.'));
      assert owned == Written(cls, value, Some(v.value));
    }
    if exists v :: owned == Written(cls, value, Some(v)) && Canons(Split(version, '.')) <= Canons(Split(v, '.')) {
      var v :| owned == Written(cls, value, Some(v)) && Canons(Split(version, '.')) <= Canons(Split(v, '.'));
      ParseWritten(cls, value, Some(v));
      VersionMatchIff(Split(version, '.'), Split(v, '.'));
    }
  }

  /** A tag of an unknown class is met by itself alone. */
  lemma {:induction false} UnknownIff(cls: string, value: string, version: Option<string>, owned: string)
    requires cls !in KNOWN_CLASSES && cls != "" && ':' !in cls && '@' !in value
    ensures TagMatch(Written(cls, value, version), owned) <==> owned == Written(cls, value, version)
  {
    ParseWritten(cls, value, version);
  }

  /** What counts as a demand: nothing asked, tags asked for, or a body that cannot be read, which no one can meet. */
  lemma DemandIs(field: Field<seq<string>>, own: seq<string>)
    ensures field.Undefined? ==> CapabilityGate(field, own)
    ensures field.Null? || field.Bad? ==> !CapabilityGate(field, own)
    ensures field.Val? ==> (CapabilityGate(field, own) <==> forall r :: r in field.v ==> r != "" && MatchOne(r, own))
  {
  }

  lemma MatchOneTrans(required: string, granted: seq<string>, own: seq<string>)
    requires MatchOne(required, granted)
    requires forall v :: v in granted && ParseTag(v).Some? ==> MatchOne(v, own)
    ensures MatchOne(required, own)
  {
    var i :| 0 <= i < |granted| && TagMatch(required, granted[i]);
    assert MatchOne(granted[i], own);
    var j :| 0 <= j < |own| && TagMatch(granted[i], own[j]);
    MatchTransitive(required, granted[i], own[j]);
  }

  /**
   * A grant never promises more than the executor owns exactly when each parseable granted tag is owned:
   * then, and only then, does every demand the grant passes also pass the executor's gate.
   */
  lemma GrantSoundIff(granted: seq<string>, own: seq<string>)
    ensures (forall required :: MatchCaps(required, granted) ==> MatchCaps(required, own))
        <==> (forall v :: v in granted && ParseTag(v).Some? ==> MatchOne(v, own))
  {
    if forall v :: v in granted && ParseTag(v).Some? ==> MatchOne(v, own) {
      forall required | MatchCaps(required, granted) ensures MatchCaps(required, own) {
        forall r | r in required ensures MatchOne(r, own) {
          MatchOneTrans(r, granted, own);
        }
      }
    }
    if forall required :: MatchCaps(required, granted) ==> MatchCaps(required, own) {
      forall v | v in granted && ParseTag(v).Some? ensures MatchOne(v, own) {
        MatchReflexive(v);
        var i :| 0 <= i < |granted| && granted[i] == v;
        assert MatchOne(v, granted);
        assert MatchCaps([v], granted);
        assert MatchCaps([v], own);
        assert v in [v];
      }
    }
  }

  /** More owned tags never lose a match. */
  lemma MatchMonotone(required: seq<string>, own: seq<string>, more: seq<string>)
    requires MatchCaps(required, own)
    requires forall t :: t in own ==> t in more
    ensures MatchCaps(required, more)
  {
    forall r | r in required ensures MatchOne(r, more) {
      var i :| 0 <= i < |own| && TagMatch(r, own[i]);
      assert own[i] in more;
      var j :| 0 <= j < |more| && more[j] == own[i];
    }
  }

  // ---- Uplink verdict ----

  datatype NodeStatus = Active | Suspended | Revoked

  datatype Entry = Entry(team: Uuid, status: NodeStatus)

  datatype Head = Head(fromNode: Uuid, fromTeam: Option<Uuid>, toNode: Uuid, toTeam: Option<Uuid>,
                       requiredCaps: Field<seq<string>>)

  datatype Verdict = Route(team: Uuid) | SilentDrop | Denied(reason: DenyReason)

  datatype DenyReason = NotActive | NotMember | ToMismatch | CrossTeam | CapsNotGranted

  /** grants(a, b): the union of tags visible between the teams, None when no grant is active. */
  function EvaluateUplink(connNode: Uuid, connTeam: Uuid, head: Head, nodes: map<Uuid, Entry>,
                          grants: (Uuid, Uuid) -> Option<seq<string>>): Verdict
  {
    if head.fromNode != connNode then SilentDrop
    else if head.fromTeam.Some? && head.fromTeam.value != connTeam then SilentDrop
    else if connNode !in nodes || nodes[connNode].status != Active then Denied(NotActive)
    else if head.toNode !in nodes then Denied(NotMember)
    else
      var sender, to := nodes[connNode].team, nodes[head.toNode].team;
      if head.toTeam.Some? && head.toTeam.value != to then Denied(ToMismatch)
      else if sender == to then Route(to)
      else if grants(sender, to).None? then Denied(CrossTeam)
      else if RequiredCaps(head.requiredCaps).None? then Denied(CapsNotGranted)
      else if !MatchCaps(RequiredCaps(head.requiredCaps).value, grants(sender, to).value) then Denied(CapsNotGranted)
      else Route(to)
  }

  /** The executor's capability gate on the same body. */
  predicate CapabilityGate(field: Field<seq<string>>, own: seq<string>) {
    RequiredCaps(field).Some? && MatchCaps(RequiredCaps(field).value, own)
  }

  // ---- What each verdict means ----

  /** The envelope's sender is who the connection says it is. */
  predicate Pinned(connNode: Uuid, connTeam: Uuid, head: Head) {
    head.fromNode == connNode && (head.fromTeam.Some? ==> head.fromTeam.value == connTeam)
  }

  predicate SenderActive(connNode: Uuid, nodes: map<Uuid, Entry>) {
    connNode in nodes && nodes[connNode].status.Active?
  }

  predicate TeamTrue(head: Head, nodes: map<Uuid, Entry>)
    requires head.toNode in nodes
  {
    head.toTeam.Some? ==> head.toTeam.value == nodes[head.toNode].team
  }

  /** A demand that is read, and every tag of which the grant's visible tags satisfy. */
  predicate DemandsVisible(field: Field<seq<string>>, visible: seq<string>) {
    RequiredCaps(field).Some? && forall r :: r in RequiredCaps(field).value ==> MatchOne(r, visible)
  }

  predicate SameTeam(connNode: Uuid, head: Head, nodes: map<Uuid, Entry>)
    requires connNode in nodes && head.toNode in nodes
  {
    nodes[connNode].team == nodes[head.toNode].team
  }

  /**
   * Each verdict has its own cause, and the causes are tried in this order: a false sender is dropped silently, a
   * sender that is not active is denied, then an unknown recipient, a false recipient team, a missing grant, and a
   * demand the grant does not show. Everything else is routed, to the team the directory gives the recipient.
   */
  lemma UplinkIff(connNode: Uuid, connTeam: Uuid, head: Head, nodes: map<Uuid, Entry>,
                  grants: (Uuid, Uuid) -> Option<seq<string>>)
    ensures var v := EvaluateUplink(connNode, connTeam, head, nodes, grants);
            var pinned, active := Pinned(connNode, connTeam, head), SenderActive(connNode, nodes);
            var known := pinned && active && head.toNode in nodes;
            var honest := known && TeamTrue(head, nodes);
            var cross := honest && !SameTeam(connNode, head, nodes);
            var visible := if cross then grants(nodes[connNode].team, nodes[head.toNode].team) else None;
            && (v.SilentDrop? <==> !pinned)
            && (v == Denied(NotActive) <==> pinned && !active)
            && (v == Denied(NotMember) <==> pinned && active && head.toNode !in nodes)
            && (v == Denied(ToMismatch) <==> known && !honest)
            && (v == Denied(CrossTeam) <==> cross && visible.None?)
            && (v == Denied(CapsNotGranted) <==>
                  cross && visible.Some? && !DemandsVisible(head.requiredCaps, visible.value))
            && (v.Route? <==> honest && (cross ==> visible.Some? && DemandsVisible(head.requiredCaps, visible.value)))
            && (v.Route? ==> v.team == nodes[head.toNode].team)
  {
  }

  /** Only the sender has to be active: an envelope to a suspended node of the same team is routed. */
  lemma SuspendedRecipientIsRouted(sender: Uuid, to: Uuid, team: Uuid, caps: Field<seq<string>>,
                                   grants: (Uuid, Uuid) -> Option<seq<string>>)
    requires sender != to
    ensures var nodes := map[sender := Entry(team, Active), to := Entry(team, Suspended)];
            EvaluateUplink(sender, team, Head(sender, Some(team), to, Some(team), caps), nodes, grants) == Route(team)
  {
  }

  /** Whatever is routed across teams passes the executor's capability gate if the grant is covered. */
  lemma RoutedOfferPassesGate(connNode: Uuid, connTeam: Uuid, head: Head, nodes: map<Uuid, Entry>,
                              grants: (Uuid, Uuid) -> Option<seq<string>>, own: seq<string>)
    requires EvaluateUplink(connNode, connTeam, head, nodes, grants).Route?
    requires nodes[connNode].team != nodes[head.toNode].team
    requires forall v :: v in grants(nodes[connNode].team, nodes[head.toNode].team).value && ParseTag(v).Some?
               ==> MatchOne(v, own)
    ensures CapabilityGate(head.requiredCaps, own)
  {
    GrantSoundIff(grants(nodes[connNode].team, nodes[head.toNode].team).value, own);
  }
}
