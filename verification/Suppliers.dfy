/** Supplier policies: what they permit, and how the routing headers become one. */
module Suppliers {
  import opened Domain
  import opened Text

  datatype Policy = Policy(allow: seq<string>, deny: seq<string>, allowHosts: seq<string>, denyHosts: seq<string>)

  const NO_POLICY := Policy([], [], [], [])

  /** Host and port as net/url and net.SplitHostPort give them: of a supplier URL, and of a host pattern. */
  datatype Net = Net(ofURL: string -> Option<(string, string)>, ofPattern: string -> (string, string))

  predicate Empty(p: Policy) {
    p == NO_POLICY
  }

  predicate Permits(p: Policy, supplier: string) {
    supplier !in p.deny && (p.allow == [] || supplier in p.allow)
  }

  predicate HasSuffix(s: string, suffix: string) {
    |suffix| <= |s| && s[|s| - |suffix|..] == suffix
  }

  predicate HostMatches(host: string, port: string, pHost: string, pPort: string) {
    if pPort != "" && pPort != port then false
    else if pHost != "" && pHost[0] == '*' then HasSuffix(host, pHost[1..])
    else host == pHost
  }

  predicate Matches(net: Net, host: string, port: string, pattern: string) {
    var (pHost, pPort) := net.ofPattern(TrimSpace(pattern));
    HostMatches(host, port, pHost, pPort)
  }

  predicate MatchesAny(net: Net, host: string, port: string, patterns: seq<string>) {
    exists i :: 0 <= i < |patterns| && Matches(net, host, port, patterns[i])
  }

  predicate PermitsEndpoint(net: Net, p: Policy, ep: Endpoint, rpc: RPCType) {
    if !Permits(p, ep.supplier) then false
    else if p.allowHosts == [] && p.denyHosts == [] then true
    else if rpc !in ep.urls then true
    else match net.ofURL(ep.urls[rpc])
      case None => false
      case Some((host, port)) =>
        if MatchesAny(net, host, port, p.denyHosts) then false
        else p.allowHosts == [] || MatchesAny(net, host, port, p.allowHosts)
  }

  /** "*.d" names the proper subdomains of d, on the given port or on any: neither d itself nor a name that merely
      ends in the same letters. */
  lemma WildcardIsProperSubdomain(host: string, d: string, port: string, pPort: string)
    ensures HostMatches(host, port, "*." + d, pPort) <==>
            (pPort == "" || pPort == port) && exists sub :: host == sub + "." + d
    ensures !HostMatches(d, port, "*." + d, pPort)
    ensures '.' !in host ==> !HostMatches(host, port, "*." + d, pPort)
    // Without a wildcard a pattern names one host.
    ensures d == "" || d[0] != '*' ==>
              (HostMatches(host, port, d, pPort) <==> (pPort == "" || pPort == port) && host == d)
  {
    var p := "*." + d;
    assert p[0] == '*' && p[1..] == "." + d;
    DotSuffix(host, d);
    DotSuffix(d, d);
  }

  lemma DotSuffix(host: string, d: string)
    ensures HasSuffix(host, "." + d) <==> exists sub :: host == sub + "." + d
    ensures HasSuffix(host, "." + d) ==> |host| > |d| && '.' in host
  {
    var tail := "." + d;
    if HasSuffix(host, tail) {
      var sub := host[..|host| - |tail|];
      assert host == sub + tail;
      assert sub + tail == sub + "." + d;
      assert host[|sub|] == '.';
    }
    if sub :| host == sub + "." + d {
      assert sub + "." + d == sub + tail;
      assert host[|sub|..] == tail;
    }
  }

  // ---- the routing headers ----

  const ALLOW_SUPPLIERS := "X-Pocket-Allow-Suppliers"
  const DENY_SUPPLIERS := "X-Pocket-Deny-Suppliers"
  const ALLOW_HOSTS := "X-Pocket-Allow-Hosts"
  const DENY_HOSTS := "X-Pocket-Deny-Hosts"
  const ADDR_PREFIX := "pokt1"

  predicate IsSpace(c: char) {
    || '\t' <= c <= '\r' || c == ' ' || c == '\U{85}' || c == '\U{A0}' || c == '\U{1680}'
    || '\U{2000}' <= c <= '\U{200A}' || c == '\U{2028}' || c == '\U{2029}' || c == '\U{202F}' || c == '\U{205F}'
    || c == '\U{3000}'
  }

  function TrimLeft(s: string): (r: string) {
    if s != "" && IsSpace(s[0]) then TrimLeft(s[1..]) else s
  }

  function TrimRight(s: string): (r: string) {
    if s != "" && IsSpace(s[|s| - 1]) then TrimRight(s[..|s| - 1]) else s
  }

  function TrimSpace(s: string): (r: string) {
    TrimRight(TrimLeft(s))
  }

  predicate AllSpace(s: string) {
    forall i :: 0 <= i < |s| ==> IsSpace(s[i])
  }

  /** `r` is `s` without the white space around it. */
  ghost predicate Trimmed(s: string, r: string) {
    && (exists pre, post :: AllSpace(pre) && AllSpace(post) && s == pre + r + post)
    && (r != "" ==> !IsSpace(r[0]) && !IsSpace(r[|r| - 1]))
  }

  lemma AllSpaceAppend(a: string, b: string)
    requires AllSpace(a) && AllSpace(b)
    ensures AllSpace(a + b)
  {
  }

  lemma {:induction false} TrimLeftTrims(s: string) returns (pre: string)
    ensures AllSpace(pre) && s == pre + TrimLeft(s)
    ensures TrimLeft(s) != "" ==> !IsSpace(TrimLeft(s)[0])
  {
    pre := "";
    if s != "" && IsSpace(s[0]) {
      var head, back := [s[0]], s[1..];
      var more := TrimLeftTrims(back);
      AllSpaceAppend(head, more);
      Rejoin(s, head, more, TrimLeft(back));
      pre := head + more;
    }
  }

  lemma Rejoin(s: string, a: string, b: string, c: string)
    requires s == a + (b + c)
    ensures s == (a + b) + c
  {
  }

  lemma {:induction false} TrimRightTrims(s: string) returns (post: string)
    ensures AllSpace(post) && s == TrimRight(s) + post
    ensures TrimRight(s) != "" ==> !IsSpace(TrimRight(s)[|TrimRight(s)| - 1])
  {
    post := "";
    if s != "" && IsSpace(s[|s| - 1]) {
      var front, last := s[..|s| - 1], [s[|s| - 1]];
      var more := TrimRightTrims(front);
      var r := TrimRight(front);
      TrimRightStep(s);
      AllSpaceAppend(more, last);
      RejoinRight(s, front, r, more, last);
      post := more + last;
    }
  }

  lemma TrimRightStep(s: string)
    requires s != "" && IsSpace(s[|s| - 1])
    ensures TrimRight(s) == TrimRight(s[..|s| - 1])
  {
  }

  lemma RejoinRight(s: string, front: string, a: string, b: string, c: string)
    requires s == front + c && front == a + b
    ensures s == a + (b + c)
  {
  }

  lemma TrimSpaceTrims(s: string)
    ensures Trimmed(s, TrimSpace(s))
  {
    var pre := TrimLeftTrims(s);
    var post := TrimRightTrims(TrimLeft(s));
    var r := TrimSpace(s);
    assert s == pre + r + post;
    if r != "" {
      assert r[0] == TrimLeft(s)[0];
    }
  }

  lemma TrimmedOnce(s: string, pre: string, r: string, post: string, left: string, q: string, right: string)
    requires s == pre + r + post && AllSpace(pre) && AllSpace(post)
    requires r != "" && !IsSpace(r[0]) && !IsSpace(r[|r| - 1])
    requires s == left + q + right && AllSpace(left) && AllSpace(right)
    requires q != "" ==> !IsSpace(q[0]) && !IsSpace(q[|q| - 1])
    ensures q == r
  {
    var i, j := |pre|, |pre| + |r| - 1;
    assert s[i] == r[0] && s[j] == r[|r| - 1];
    assert i >= |left| && j < |left| + |q|;
    assert s[|left|] == q[0] && s[|left| + |q| - 1] == q[|q| - 1];
    assert i == |left| && |r| == |q|;
    assert r == s[i..j + 1] && q == s[i..j + 1];
  }

  /** Trimming is the only way to take the white space off both ends. */
  lemma TrimmedIs(s: string, r: string)
    ensures Trimmed(s, r) <==> r == TrimSpace(s)
  {
    TrimSpaceTrims(s);
    var q := TrimSpace(s);
    if Trimmed(s, r) {
      var pre, post :| AllSpace(pre) && AllSpace(post) && s == pre + r + post;
      var left, right :| AllSpace(left) && AllSpace(right) && s == left + q + right;
      if r != "" {
        TrimmedOnce(s, pre, r, post, left, q, right);
      } else if q != "" {
        TrimmedOnce(s, left, q, right, pre, r, post);
      }
    }
  }

  /** What Go calls white space. */
  lemma SpaceIs(c: char)
    ensures IsSpace(c) <==>
            c in "\t\n\U{0B}\U{0C}\r \U{85}\U{A0}\U{1680}\U{2000}\U{2001}\U{2002}\U{2003}\U{2004}\U{2005}\U{2006}"
              + "\U{2007}\U{2008}\U{2009}\U{200A}\U{2028}\U{2029}\U{202F}\U{205F}\U{3000}"
  {
  }

  /** White space around a pattern is ignored. */
  lemma MatchesTrimmed(net: Net, host: string, port: string, pattern: string, p: string)
    requires Trimmed(pattern, p)
    ensures Matches(net, host, port, pattern) <==>
            HostMatches(host, port, net.ofPattern(p).0, net.ofPattern(p).1)
  {
    TrimmedIs(pattern, p);
  }

  predicate ValidAddr(s: string) {
    ADDR_PREFIX <= s
  }

  /** Not empty, not a URL and not an operator address. */
  predicate ValidHostPattern(s: string) {
    var p := TrimSpace(s);
    p != "" && '/' !in p && !(ADDR_PREFIX <= p)
  }

  /** A part's own entry, when there is anything but white space in it. */
  function EntryOf(part: string): (es: seq<string>) {
    var field := TrimSpace(part);
    if field == "" then [] else [field]
  }

  /** The trimmed, non-empty entries of one comma-separated value. */
  function EntriesOf(parts: seq<string>): (es: seq<string>) {
    if parts == [] then []
    else EntryOf(parts[0]) + EntriesOf(parts[1..])
  }

  function Fields(v: string): (es: seq<string>) {
    EntriesOf(SplitOn(v, ','))
  }

  /** An entry is a comma-separated part without its white space, and is not empty. */
  lemma {:induction false} FieldsAreTheParts(parts: seq<string>, f: string)
    ensures f in EntriesOf(parts) <==> f != "" && exists i :: 0 <= i < |parts| && f == TrimSpace(parts[i])
  {
    if parts != [] {
      FieldsAreTheParts(parts[1..], f);
      if i :| 0 <= i < |parts| && f == TrimSpace(parts[i]) {
        assert i > 0 ==> parts[1..][i - 1] == parts[i];
      }
      if i :| 0 <= i < |parts[1..]| && f == TrimSpace(parts[1..][i]) {
        assert parts[i + 1] == parts[1..][i];
      }
    }
  }

  /** The entries of a value: what is between its commas, without white space, unless that leaves nothing. */
  lemma FieldsAre(v: string, f: string)
    ensures f in Fields(v) <==> f != "" && exists p :: IsCell(v, ',', p) && Trimmed(p, f)
  {
    var parts := SplitOn(v, ',');
    FieldsAreTheParts(parts, f);
    if f in Fields(v) {
      var i :| 0 <= i < |parts| && f == TrimSpace(parts[i]);
      PartsAreCells(v, ',', parts[i]);
      TrimmedIs(parts[i], f);
    }
    if p :| IsCell(v, ',', p) && Trimmed(p, f) {
      PartsAreCells(v, ',', p);
      TrimmedIs(p, f);
    }
  }

  /** `f` is an entry of some value of the header called `name`, under any spelling of its case. */
  ghost predicate Listed(h: Header, name: string, f: string) {
    exists k, i :: k in h && EqualFold(k, name) && 0 <= i < |h[k]| && f in Fields(h[k][i])
  }

  /** Some entry of the list is not what the list holds. */
  ghost predicate BadList(h: Header, name: string, valid: string -> bool) {
    exists f :: Listed(h, name, f) && !valid(f)
  }

  /** The entries are exactly those of the list. */
  ghost predicate Holds(h: Header, name: string, entries: seq<string>) {
    forall f :: f in entries <==> Listed(h, name, f)
  }

  function Without(h: Header, name: string): (r: Header) {
    map k | k in h && !EqualFold(k, name) :: h[k]
  }

  class HeaderMap {
    var m: Header

    constructor (h: Header)
      ensures m == h
    {
      m := h;
    }
  }

  /** Pull every value of one header out of the map, whatever order it is ranged over in. */
  method TakeRaw(h: HeaderMap, name: string) returns (raw: seq<string>)
    modifies h
    ensures h.m == Without(old(h.m), name)
    ensures forall v :: v in raw <==> exists k :: k in old(h.m) && EqualFold(k, name) && v in old(h.m)[k]
  {
    raw := [];
    ghost var before := h.m;
    var left := h.m.Keys;
    while left != {}
      invariant left <= before.Keys
      invariant h.m == map k | k in before && (k in left || !EqualFold(k, name)) :: before[k]
      invariant forall v :: v in raw <==> exists k :: k in before && k !in left && EqualFold(k, name) && v in before[k]
      decreases left
    {
      var k :| k in left;
      left := left - {k};
      if EqualFold(k, name) {
        raw := raw + h.m[k];
        h.m := h.m - {k};
      }
    }
  }

  /** The entries of one value that precede the first invalid one; `bad` when there is one. */
  method TakeFields(v: string, valid: string -> bool) returns (out: seq<string>, bad: bool)
    ensures bad <==> exists f :: f in Fields(v) && !valid(f)
    ensures !bad ==> out == Fields(v)
  {
    out, bad := [], false;
    var parts := SplitOn(v, ',');
    assert parts[..0] == [];
    for i := 0 to |parts|
      invariant out == EntriesOf(parts[..i]) && forall f :: f in out ==> valid(f)
    {
      EntriesOfStep(parts, i);
      var field := TrimSpace(parts[i]);
      if field == "" {
        continue;
      }
      if !valid(field) {
        EntriesOfPrefix(parts, i + 1);
        bad := true;
        return;
      }
      out := out + [field];
    }
    assert parts[..|parts|] == parts;
  }

  lemma {:induction false} EntriesOfAppend(a: seq<string>, b: seq<string>)
    ensures EntriesOf(a + b) == EntriesOf(a) + EntriesOf(b)
  {
    if a == [] {
      assert a + b == b;
    } else {
      Uncons(a, b);
      EntriesOfAppend(a[1..], b);
      Assoc(EntryOf(a[0]), EntriesOf(a[1..]), EntriesOf(b));
    }
  }

  lemma Uncons(a: seq<string>, b: seq<string>)
    requires a != []
    ensures (a + b)[0] == a[0] && (a + b)[1..] == a[1..] + b
  {
  }

  lemma Assoc(a: seq<string>, b: seq<string>, c: seq<string>)
    ensures a + (b + c) == (a + b) + c
  {
  }

  lemma EntriesOfStep(parts: seq<string>, i: nat)
    requires i < |parts|
    ensures EntriesOf(parts[..i + 1]) ==
            EntriesOf(parts[..i]) + EntryOf(parts[i])
  {
    assert parts[..i + 1] == parts[..i] + [parts[i]];
    EntriesOfAppend(parts[..i], [parts[i]]);
    assert EntriesOf([parts[i]]) == EntryOf(parts[i]) + EntriesOf([]) == EntryOf(parts[i]);
  }

  lemma EntriesOfPrefix(parts: seq<string>, i: nat)
    requires i <= |parts|
    ensures forall f :: f in EntriesOf(parts[..i]) ==> f in EntriesOf(parts)
  {
    assert parts == parts[..i] + parts[i..];
    EntriesOfAppend(parts[..i], parts[i..]);
  }

  /** `f` is an entry of one of the first `n` values. */
  ghost predicate Entry(raw: seq<string>, n: nat, f: string)
    requires n <= |raw|
  {
    exists j :: 0 <= j < n && f in Fields(raw[j])
  }

  lemma EntryStep(raw: seq<string>, i: nat)
    requires i < |raw|
    ensures forall f :: Entry(raw, i + 1, f) <==> Entry(raw, i, f) || f in Fields(raw[i])
  {
    forall f
      ensures Entry(raw, i + 1, f) <==> Entry(raw, i, f) || f in Fields(raw[i])
    {
      if Entry(raw, i + 1, f) {
        var j :| 0 <= j < i + 1 && f in Fields(raw[j]);
        assert j == i || Entry(raw, i, f);
      }
    }
  }

  method TakeEntries(raw: seq<string>, valid: string -> bool) returns (r: Option<seq<string>>)
    ensures r.None? <==> exists f :: Entry(raw, |raw|, f) && !valid(f)
    ensures r.Some? ==> forall f :: f in r.value <==> Entry(raw, |raw|, f)
  {
    var out: seq<string> := [];
    for i := 0 to |raw|
      invariant forall f :: f in out <==> Entry(raw, i, f)
      invariant forall f :: f in out ==> valid(f)
    {
      var more, bad := TakeFields(raw[i], valid);
      if bad {
        ghost var f :| f in Fields(raw[i]) && !valid(f);
        assert Entry(raw, |raw|, f);
        return None;
      }
      EntryStep(raw, i);
      out := out + more;
    }
    return Some(out);
  }

  /** One list: removed from the map always; an error exactly when some entry is invalid; otherwise all its entries. */
  method TakeList(h: HeaderMap, name: string, valid: string -> bool) returns (r: Option<seq<string>>)
    modifies h
    ensures h.m == Without(old(h.m), name)
    ensures r.None? <==> BadList(old(h.m), name, valid)
    ensures r.Some? ==> Holds(old(h.m), name, r.value)
  {
    var raw := TakeRaw(h, name);
    ListedInRaw(old(h.m), name, raw);
    r := TakeEntries(raw, valid);
  }

  lemma ListedInRaw(h: Header, name: string, raw: seq<string>)
    requires forall v :: v in raw <==> exists k :: k in h && EqualFold(k, name) && v in h[k]
    ensures forall f :: Listed(h, name, f) <==> Entry(raw, |raw|, f)
  {
    forall f
      ensures Listed(h, name, f) <==> Entry(raw, |raw|, f)
    {
      if Listed(h, name, f) {
        var k, i :| k in h && EqualFold(k, name) && 0 <= i < |h[k]| && f in Fields(h[k][i]);
        assert h[k][i] in h[k] && h[k][i] in raw;
        var j :| 0 <= j < |raw| && raw[j] == h[k][i];
      }
      if Entry(raw, |raw|, f) {
        var j :| 0 <= j < |raw| && f in Fields(raw[j]);
        assert raw[j] in raw;
        var k :| k in h && EqualFold(k, name) && raw[j] in h[k];
        var i :| 0 <= i < |h[k]| && h[k][i] == raw[j];
      }
    }
  }

  // ---- TakeSupplierPolicy ----

  /** No header is two of the four: they differ in length, or in a letter that case cannot hide. */
  lemma NamesApart(k: string)
    ensures EqualFold(k, ALLOW_SUPPLIERS) ==>
              !EqualFold(k, DENY_SUPPLIERS) && !EqualFold(k, ALLOW_HOSTS) && !EqualFold(k, DENY_HOSTS)
    ensures EqualFold(k, DENY_SUPPLIERS) ==> !EqualFold(k, ALLOW_HOSTS) && !EqualFold(k, DENY_HOSTS)
    ensures EqualFold(k, ALLOW_HOSTS) ==> !EqualFold(k, DENY_HOSTS)
  {
    assert |ALLOW_SUPPLIERS| == 24 && |DENY_SUPPLIERS| == 23 && |ALLOW_HOSTS| == 20 && |DENY_HOSTS| == 19;
  }

  /** No spelling of one header is a spelling of the other. */
  ghost predicate Apart(a: string, b: string) {
    forall k :: EqualFold(k, b) ==> !EqualFold(k, a)
  }

  lemma AllApart()
    ensures Apart(ALLOW_SUPPLIERS, DENY_SUPPLIERS) && Apart(ALLOW_SUPPLIERS, ALLOW_HOSTS)
    ensures Apart(ALLOW_SUPPLIERS, DENY_HOSTS)
    ensures Apart(DENY_SUPPLIERS, ALLOW_HOSTS) && Apart(DENY_SUPPLIERS, DENY_HOSTS) && Apart(ALLOW_HOSTS, DENY_HOSTS)
  {
    forall k
      ensures EqualFold(k, DENY_SUPPLIERS) ==> !EqualFold(k, ALLOW_SUPPLIERS)
      ensures EqualFold(k, ALLOW_HOSTS) ==> !EqualFold(k, ALLOW_SUPPLIERS) && !EqualFold(k, DENY_SUPPLIERS)
      ensures EqualFold(k, DENY_HOSTS) ==>
                !EqualFold(k, ALLOW_SUPPLIERS) && !EqualFold(k, DENY_SUPPLIERS) && !EqualFold(k, ALLOW_HOSTS)
    {
      NamesApart(k);
    }
  }

  ghost predicate SameList(h: Header, w: Header, name: string) {
    forall f :: Listed(h, name, f) <==> Listed(w, name, f)
  }

  lemma SameListSame(h: Header, w: Header, name: string, valid: string -> bool, entries: seq<string>)
    requires SameList(h, w, name)
    ensures BadList(h, name, valid) <==> BadList(w, name, valid)
    ensures Holds(h, name, entries) <==> Holds(w, name, entries)
  {
  }

  /** Taking other headers out first does not change what a list says. */
  lemma ListedWithout(h: Header, other: string, name: string)
    requires Apart(other, name)
    ensures SameList(h, Without(h, other), name)
  {
    var w := Without(h, other);
    forall f
      ensures Listed(w, name, f) <==> Listed(h, name, f)
    {
      if Listed(h, name, f) {
        var k, i :| k in h && EqualFold(k, name) && 0 <= i < |h[k]| && f in Fields(h[k][i]);
        assert k in w && w[k] == h[k];
      }
      if Listed(w, name, f) {
        var k, i :| k in w && EqualFold(k, name) && 0 <= i < |w[k]| && f in Fields(w[k][i]);
        assert k in h && w[k] == h[k];
      }
    }
  }

  /** The four lists' names, in the order in which they are taken. */
  datatype Names = Names(allow: string, deny: string, allowHosts: string, denyHosts: string) {
    predicate Has(k: string) {
      EqualFold(k, allow) || EqualFold(k, deny) || EqualFold(k, allowHosts) || EqualFold(k, denyHosts)
    }

    ghost predicate Distinct() {
      && Apart(allow, deny) && Apart(allow, allowHosts) && Apart(allow, denyHosts)
      && Apart(deny, allowHosts) && Apart(deny, denyHosts) && Apart(allowHosts, denyHosts)
    }
  }

  const ROUTING := Names(ALLOW_SUPPLIERS, DENY_SUPPLIERS, ALLOW_HOSTS, DENY_HOSTS)

  ghost predicate Malformed(h: Header, n: Names) {
    || BadList(h, n.allow, ValidAddr) || BadList(h, n.deny, ValidAddr)
    || BadList(h, n.allowHosts, ValidHostPattern) || BadList(h, n.denyHosts, ValidHostPattern)
  }

  /** The policy says exactly what the four lists say. */
  ghost predicate Describes(h: Header, n: Names, p: Policy) {
    && Holds(h, n.allow, p.allow) && Holds(h, n.deny, p.deny)
    && Holds(h, n.allowHosts, p.allowHosts) && Holds(h, n.denyHosts, p.denyHosts)
  }

  function Stripped(h: Header, n: Names): (r: Header) {
    map k | k in h && !n.Has(k) :: h[k]
  }

  function Entries(r: Option<seq<string>>): (entries: seq<string>) {
    if r.Some? then r.value else []
  }

  ghost predicate NoneListed(h: Header, name: string) {
    forall f :: !Listed(h, name, f)
  }

  ghost predicate HostListed(h: Header, name: string, net: Net, host: string, port: string) {
    exists f :: Listed(h, name, f) && Matches(net, host, port, f)
  }

  /** What the headers themselves ask for, whatever order their entries are read in. */
  ghost predicate Admitted(net: Net, h: Header, n: Names, ep: Endpoint, rpc: RPCType) {
    && !Listed(h, n.deny, ep.supplier)
    && (NoneListed(h, n.allow) || Listed(h, n.allow, ep.supplier))
    && (|| (NoneListed(h, n.allowHosts) && NoneListed(h, n.denyHosts))
        || rpc !in ep.urls
        || HostAdmitted(net, h, n, net.ofURL(ep.urls[rpc])))
  }

  ghost predicate HostAdmitted(net: Net, h: Header, n: Names, at: Option<(string, string)>) {
    && at.Some?
    && !HostListed(h, n.denyHosts, net, at.value.0, at.value.1)
    && (NoneListed(h, n.allowHosts) || HostListed(h, n.allowHosts, net, at.value.0, at.value.1))
  }

  lemma EmptyIffNoneListed(h: Header, name: string, entries: seq<string>)
    requires Holds(h, name, entries)
    ensures entries == [] <==> NoneListed(h, name)
  {
    if entries != [] {
      assert entries[0] in entries;
    } else {
      assert forall f :: Listed(h, name, f) ==> f in entries;
    }
  }

  lemma MatchesIffHostListed(h: Header, name: string, entries: seq<string>, net: Net, host: string, port: string)
    requires Holds(h, name, entries)
    ensures MatchesAny(net, host, port, entries) <==> HostListed(h, name, net, host, port)
  {
    if MatchesAny(net, host, port, entries) {
      var i :| 0 <= i < |entries| && Matches(net, host, port, entries[i]);
      assert entries[i] in entries;
    }
    if HostListed(h, name, net, host, port) {
      var f :| Listed(h, name, f) && Matches(net, host, port, f);
      assert f in entries;
    }
  }

  /** A policy read from the headers permits exactly the endpoints the headers admit. */
  lemma PermitsIffAdmitted(net: Net, h: Header, n: Names, p: Policy, ep: Endpoint, rpc: RPCType)
    requires Describes(h, n, p)
    ensures PermitsEndpoint(net, p, ep, rpc) <==> Admitted(net, h, n, ep, rpc)
  {
    EmptyIffNoneListed(h, n.allow, p.allow);
    EmptyIffNoneListed(h, n.allowHosts, p.allowHosts);
    EmptyIffNoneListed(h, n.denyHosts, p.denyHosts);
    if rpc in ep.urls && net.ofURL(ep.urls[rpc]).Some? {
      var (host, port) := net.ofURL(ep.urls[rpc]).value;
      MatchesIffHostListed(h, n.allowHosts, p.allowHosts, net, host, port);
      MatchesIffHostListed(h, n.denyHosts, p.denyHosts, net, host, port);
    }
  }

  lemma ListsSurvive(h0: Header, h1: Header, h2: Header, h3: Header, n: Names)
    requires n.Distinct()
    requires h1 == Without(h0, n.allow) && h2 == Without(h1, n.deny) && h3 == Without(h2, n.allowHosts)
    ensures SameList(h0, h1, n.deny) && SameList(h0, h2, n.allowHosts) && SameList(h0, h3, n.denyHosts)
    ensures Without(h3, n.denyHosts) == Stripped(h0, n)
  {
    ListedWithout(h0, n.allow, n.deny);
    ListedWithout(h0, n.allow, n.allowHosts);
    ListedWithout(h1, n.deny, n.allowHosts);
    ListedWithout(h0, n.allow, n.denyHosts);
    ListedWithout(h1, n.deny, n.denyHosts);
    ListedWithout(h2, n.allowHosts, n.denyHosts);
  }

  method TakeLists(h: HeaderMap, n: Names) returns (r: Option<Policy>)
    requires n.Distinct()
    modifies h
    ensures h.m == Stripped(old(h.m), n)
    ensures r.None? <==> Malformed(old(h.m), n)
    ensures r.Some? ==> Describes(old(h.m), n, r.value)
  {
    ghost var h0 := h.m;
    var allow := TakeList(h, n.allow, ValidAddr);
    ghost var h1 := h.m;
    var deny := TakeList(h, n.deny, ValidAddr);
    ghost var h2 := h.m;
    var allowHosts := TakeList(h, n.allowHosts, ValidHostPattern);
    ghost var h3 := h.m;
    var denyHosts := TakeList(h, n.denyHosts, ValidHostPattern);
    ListsSurvive(h0, h1, h2, h3, n);
    SameListSame(h0, h1, n.deny, ValidAddr, Entries(deny));
    SameListSame(h0, h2, n.allowHosts, ValidHostPattern, Entries(allowHosts));
    SameListSame(h0, h3, n.denyHosts, ValidHostPattern, Entries(denyHosts));
    if allow.None? || deny.None? || allowHosts.None? || denyHosts.None? {
      return None;
    }
    return Some(Policy(allow.value, deny.value, allowHosts.value, denyHosts.value));
  }

  /** An entry has no white space left to trim. */
  lemma ListedIsTrim(h: Header, name: string, f: string)
    requires Listed(h, name, f)
    ensures f != "" && TrimSpace(f) == f
  {
    var k, i :| k in h && EqualFold(k, name) && 0 <= i < |h[k]| && f in Fields(h[k][i]);
    var parts := SplitOn(h[k][i], ',');
    FieldsAreTheParts(parts, f);
    var j :| 0 <= j < |parts| && f == TrimSpace(parts[j]);
    TrimSpaceTrims(parts[j]);
    assert !IsSpace(f[0]) && !IsSpace(f[|f| - 1]);
  }

  lemma BadHosts(h: Header, name: string)
    ensures BadList(h, name, ValidHostPattern) <==> exists f :: Listed(h, name, f) && ('/' in f || "pokt1" <= f)
  {
    forall f | Listed(h, name, f)
      ensures !ValidHostPattern(f) <==> '/' in f || "pokt1" <= f
    {
      ListedIsTrim(h, name, f);
    }
  }

  lemma BadAddrs(h: Header, name: string)
    ensures BadList(h, name, ValidAddr) <==> exists f :: Listed(h, name, f) && !("pokt1" <= f)
  {
  }

  /** All four headers leave the map in any spelling and nothing else does, even when a list is malformed. */
  method TakeSupplierPolicy(h: HeaderMap) returns (r: Option<Policy>)
    modifies h
    ensures h.m == Stripped(old(h.m), ROUTING)
    ensures r.None? <==> Malformed(old(h.m), ROUTING)
    ensures r.Some? ==> Describes(old(h.m), ROUTING, r.value)
    // By name.
    ensures forall k :: k in h.m <==>
              && k in old(h.m)
              && !EqualFold(k, "X-Pocket-Allow-Suppliers") && !EqualFold(k, "X-Pocket-Deny-Suppliers")
              && !EqualFold(k, "X-Pocket-Allow-Hosts") && !EqualFold(k, "X-Pocket-Deny-Hosts")
    ensures forall k :: k in h.m ==> h.m[k] == old(h.m)[k]
    ensures r.None? <==>
              || (exists f :: Listed(old(h.m), "X-Pocket-Allow-Suppliers", f) && !("pokt1" <= f))
              || (exists f :: Listed(old(h.m), "X-Pocket-Deny-Suppliers", f) && !("pokt1" <= f))
              || (exists f :: Listed(old(h.m), "X-Pocket-Allow-Hosts", f) && ('/' in f || "pokt1" <= f))
              || (exists f :: Listed(old(h.m), "X-Pocket-Deny-Hosts", f) && ('/' in f || "pokt1" <= f))
    ensures r.Some? ==> Holds(old(h.m), "X-Pocket-Allow-Suppliers", r.value.allow)
    ensures r.Some? ==> Holds(old(h.m), "X-Pocket-Deny-Suppliers", r.value.deny)
    ensures r.Some? ==> Holds(old(h.m), "X-Pocket-Allow-Hosts", r.value.allowHosts)
    ensures r.Some? ==> Holds(old(h.m), "X-Pocket-Deny-Hosts", r.value.denyHosts)
  {
    AllApart();
    BadAddrs(h.m, ALLOW_SUPPLIERS);
    BadAddrs(h.m, DENY_SUPPLIERS);
    BadHosts(h.m, ALLOW_HOSTS);
    BadHosts(h.m, DENY_HOSTS);
    r := TakeLists(h, ROUTING);
  }
}
