/**
  Which address a request counts for (internal/app/http.go): the trusted-proxy list and the
  right-to-left walk over X-Forwarded-For. netip's text parsing is a function parameter.
 */
module ClientAddr {
  import opened Model
  import opened Prefixes

  // ---- comma-separated lists ----

  const COMMA := ','

  /** strings.Split on commas. */
  function Split(s: string): (r: seq<string>)
    ensures |r| >= 1
  {
    if s == "" then [""]
    else
      var rest := Split(s[1..]);
      if s[0] == COMMA then [""] + rest else PutFirst(s[0], rest)
  }

  function PutFirst(c: char, parts: seq<string>): (r: seq<string>)
    requires |parts| >= 1
    ensures |r| == |parts|
  {
    [[c] + parts[0]] + parts[1..]
  }

  /** strings.Join with commas. */
  function Join(values: seq<string>): string {
    if values == [] then "" else if |values| == 1 then values[0] else values[0] + [COMMA] + Join(values[1..])
  }

  /** The entries of all header lines, line by line. */
  function AllEntries(values: seq<string>): seq<string> {
    if values == [] then [] else Split(values[0]) + AllEntries(values[1..])
  }

  lemma PutFirstConcat(c: char, parts: seq<string>, more: seq<string>)
    requires |parts| >= 1
    ensures PutFirst(c, parts + more) == PutFirst(c, parts) + more
  {
    assert (parts + more)[1..] == parts[1..] + more;
  }

  lemma {:induction false} SplitAtComma(a: string, b: string)
    ensures Split(a + [COMMA] + b) == Split(a) + Split(b)
  {
    var s := a + [COMMA] + b;
    if a == "" {
      assert s[1..] == b;
    } else {
      assert s[0] == a[0] && s[1..] == a[1..] + [COMMA] + b;
      SplitAtComma(a[1..], b);
      if a[0] == COMMA {
        assert [""] + (Split(a[1..]) + Split(b)) == [""] + Split(a[1..]) + Split(b);
      } else {
        PutFirstConcat(a[0], Split(a[1..]), Split(b));
      }
    }
  }

  /** Joining the lines and splitting again yields the entries of each line in turn. */
  lemma {:induction false} SplitOfJoin(values: seq<string>)
    requires values != []
    ensures Split(Join(values)) == AllEntries(values)
  {
    if |values| == 1 {
      assert AllEntries(values[1..]) == [];
    } else {
      SplitAtComma(values[0], Join(values[1..]));
      SplitOfJoin(values[1..]);
    }
  }

  lemma {:induction false} AllEntriesConcat(a: seq<string>, b: seq<string>)
    ensures AllEntries(a + b) == AllEntries(a) + AllEntries(b)
  {
    if a == [] {
      assert a + b == b;
    } else {
      AllEntriesConcat(a[1..], b);
      assert (a + b)[0] == a[0] && (a + b)[1..] == a[1..] + b;
      ConcatAssoc(Split(a[0]), AllEntries(a[1..]), AllEntries(b));
    }
  }

  /** Split is inverse to Join: no entry holds a comma, and joined they are the text again. */
  lemma {:induction false} JoinOfSplit(s: string)
    ensures Join(Split(s)) == s && forall i | 0 <= i < |Split(s)| :: COMMA !in Split(s)[i]
  {
    if s == "" {
    } else {
      JoinOfSplit(s[1..]);
      var rest := Split(s[1..]);
      if s[0] == COMMA {
        assert ([""] + rest)[1..] == rest;
        assert s == "" + [COMMA] + s[1..];
      } else {
        JoinPutFirst(s[0], rest);
        assert s == [s[0]] + s[1..];
      }
    }
  }

  lemma JoinPutFirst(c: char, parts: seq<string>)
    requires |parts| >= 1
    ensures Join(PutFirst(c, parts)) == [c] + Join(parts)
  {
    var first := PutFirst(c, parts);
    assert first[0] == [c] + parts[0] && first[1..] == parts[1..];
    if |parts| == 1 {
      assert Join(first) == first[0];
    } else {
      assert Join(first) == first[0] + [COMMA] + Join(parts[1..]);
      ConcatAssoc([c], parts[0], [COMMA]);
      ConcatAssoc([c], parts[0] + [COMMA], Join(parts[1..]));
    }
  }

  // ---- trimming ----

  predicate IsSpace(c: char) {
    c == ' ' || '\t' <= c <= '\r' || c == '\U{0085}' || c == '\U{00A0}' || c == '\U{1680}'
    || '\U{2000}' <= c <= '\U{200A}'
    || c == '\U{2028}' || c == '\U{2029}' || c == '\U{202F}' || c == '\U{205F}' || c == '\U{3000}'
  }

  function TrimLeft(s: string): string {
    if s != "" && IsSpace(s[0]) then TrimLeft(s[1..]) else s
  }

  function TrimRight(s: string): string {
    if s != "" && IsSpace(s[|s| - 1]) then TrimRight(s[..|s| - 1]) else s
  }

  function TrimSpace(s: string): string {
    TrimRight(TrimLeft(s))
  }

  lemma {:induction false} TrimLeftCuts(s: string) returns (i: nat)
    ensures i <= |s| && TrimLeft(s) == s[i..] && (forall k | 0 <= k < i :: IsSpace(s[k]))
    ensures i < |s| ==> !IsSpace(s[i])
  {
    if s != "" && IsSpace(s[0]) {
      i := TrimLeftCuts(s[1..]);
      assert s[1..][i..] == s[i + 1..];
      forall k | 0 <= k < i + 1 ensures IsSpace(s[k]) {
        assert k > 0 ==> s[1..][k - 1] == s[k];
      }
      i := i + 1;
    } else {
      i := 0;
    }
  }

  lemma {:induction false} TrimRightCuts(s: string) returns (j: nat)
    ensures j <= |s| && TrimRight(s) == s[..j] && (forall k | j <= k < |s| :: IsSpace(s[k]))
    ensures j > 0 ==> !IsSpace(s[j - 1])
  {
    if s != "" && IsSpace(s[|s| - 1]) {
      var t := s[..|s| - 1];
      j := TrimRightCuts(t);
      assert t[..j] == s[..j];
      forall k | j <= k < |s| ensures IsSpace(s[k]) {
        assert k < |s| - 1 ==> t[k] == s[k];
      }
    } else {
      j := |s|;
    }
  }

  /** Trimming cuts off the spaces at both ends and nothing else. */
  lemma TrimIsExact(s: string) returns (i: nat, j: nat)
    ensures i <= j <= |s| && TrimSpace(s) == s[i..j]
    ensures forall k | 0 <= k < i || j <= k < |s| :: IsSpace(s[k])
    ensures i < j ==> !IsSpace(s[i]) && !IsSpace(s[j - 1])
  {
    i := TrimLeftCuts(s);
    var t := s[i..];
    var m := TrimRightCuts(t);
    j := i + m;
    assert t[..m] == s[i..j];
    forall k | j <= k < |s| ensures IsSpace(s[k]) {
      assert t[k - i] == s[k];
    }
    assert m > 0 ==> t[m - 1] == s[j - 1];
  }

  // ---- the trusted proxies ----

  datatype Field = Blank | Bad | Range(p: Prefix)

  /** What one entry of the flag denotes. */
  function ReadField(text: string, parseAddr: string -> Option<Addr>, parsePrefix: string -> Option<Prefix>): Field {
    var field := TrimSpace(text);
    if field == "" then Blank
    else if '/' !in field then
      var a := parseAddr(field);
      if a.None? then Bad else Range(PrefixFrom(Unmap(a.value), Width(Unmap(a.value))))
    else
      var p := parsePrefix(field);
      if p.None? then Bad
      else if !Is4In6(p.value.addr) then Range(p.value)
      else if p.value.bits < 96 then Bad
      else Range(Plain(p.value))
  }

  /** The parsers answer addresses and prefixes in range. */
  ghost predicate Parsers(parseAddr: string -> Option<Addr>, parsePrefix: string -> Option<Prefix>) {
    && (forall s: string :: parseAddr(s).Some? ==> ValidAddr(parseAddr(s).value))
    && (forall s: string :: parsePrefix(s).Some? ==> ValidPrefix(parsePrefix(s).value))
  }

  ghost predicate ProxiesOk(proxies: seq<Prefix>) {
    forall i | 0 <= i < |proxies| :: ValidPrefix(proxies[i])
  }

  /** Some proxy range contains the address. */
  ghost predicate Trusted(proxies: seq<Prefix>, a: Addr)
    requires ProxiesOk(proxies)
  {
    exists i :: 0 <= i < |proxies| && Contains(proxies[i], a)
  }

  /** Some entry of the flag, taken alone, contains the address. */
  ghost predicate Named(fields: seq<Field>, a: Addr) {
    exists i :: 0 <= i < |fields| && fields[i].Range? && fields[i].p.bits <= Width(fields[i].p.addr) &&
      Contains(fields[i].p, a)
  }

  function ReadFields(texts: seq<string>, parseAddr: string -> Option<Addr>,
      parsePrefix: string -> Option<Prefix>): (fs: seq<Field>)
    ensures |fs| == |texts|
    ensures forall i | 0 <= i < |texts| :: fs[i] == ReadField(texts[i], parseAddr, parsePrefix)
  {
    seq(|texts|, i requires 0 <= i < |texts| => ReadField(texts[i], parseAddr, parsePrefix))
  }

  lemma FieldValid(text: string, parseAddr: string -> Option<Addr>, parsePrefix: string -> Option<Prefix>)
    requires Parsers(parseAddr, parsePrefix)
    ensures var f := ReadField(text, parseAddr, parsePrefix); f.Range? ==> ValidPrefix(f.p) && ValidPrefix(Masked(f.p))
  {
    var field := TrimSpace(text);
    var a, p := parseAddr(field), parsePrefix(field);
    if p.Some? && Is4In6(p.value.addr) && p.value.bits >= 96 {
      PlainKeepsMembers(p.value, 0);
    }
    var f := ReadField(text, parseAddr, parsePrefix);
    if f.Range? {
      DivMasked(f.p.addr.n, Block(f.p));
    }
  }

  // ---- what an entry means ----

  /** Without a zone and, when it is the mapped form of an IPv4 address, as that address. */
  function PlainAddr(a: Addr): Addr {
    match Unmap(a)
    case V4(n) => V4(n)
    case V6(n, _) => V6(n, "")
  }

  /** A bare address stands for itself; a range for its members, a mapped one for mapped members. */
  predicate EntryTrusts(text: string, a: Addr, parseAddr: string -> Option<Addr>,
      parsePrefix: string -> Option<Prefix>)
  {
    var field := TrimSpace(text);
    if '/' !in field then field != "" && parseAddr(field).Some? && a == PlainAddr(parseAddr(field).value)
    else
      && parsePrefix(field).Some?
      && var p := parsePrefix(field).value;
      && p.bits <= Width(p.addr)
      && if Is4In6(p.addr) then a.V4? && Contains(p, V6(MappedForm(a.n), "")) else Contains(p, a)
  }

  /** Neither blank nor an address nor a range, or a mapped range that reaches beyond the mapped addresses. */
  predicate EntryRefused(text: string, parseAddr: string -> Option<Addr>, parsePrefix: string -> Option<Prefix>) {
    var field := TrimSpace(text);
    && field != ""
    && if '/' !in field then parseAddr(field) == None
       else parsePrefix(field) == None || (Is4In6(parsePrefix(field).value.addr) && parsePrefix(field).value.bits < 96)
  }

  ghost predicate SomeTrusts(texts: seq<string>, a: Addr, parseAddr: string -> Option<Addr>,
      parsePrefix: string -> Option<Prefix>)
  {
    exists i :: 0 <= i < |texts| && EntryTrusts(texts[i], a, parseAddr, parsePrefix)
  }

  ghost predicate SomeRefused(texts: seq<string>, parseAddr: string -> Option<Addr>,
      parsePrefix: string -> Option<Prefix>)
  {
    exists i :: 0 <= i < |texts| && EntryRefused(texts[i], parseAddr, parsePrefix)
  }

  lemma WholeWidth(a: Addr, b: Addr)
    ensures Contains(PrefixFrom(b, Width(b)), a) <==> a == (if b.V4? then b else V6(b.n, ""))
  {
    assert Block(PrefixFrom(b, Width(b))) == 1;
  }

  lemma FieldMeans(text: string, a: Addr, parseAddr: string -> Option<Addr>, parsePrefix: string -> Option<Prefix>)
    requires Parsers(parseAddr, parsePrefix) && ValidAddr(a) && !EntryRefused(text, parseAddr, parsePrefix)
    ensures var f := ReadField(text, parseAddr, parsePrefix);
      EntryTrusts(text, a, parseAddr, parsePrefix) <==>
        f.Range? && f.p.bits <= Width(f.p.addr) && Contains(f.p, a)
  {
    var field := TrimSpace(text);
    var x, p := parseAddr(field), parsePrefix(field);
    if '/' !in field {
      if x.Some? {
        WholeWidth(a, Unmap(x.value));
      }
    } else if p.Some? && Is4In6(p.value.addr) && a.V4? {
      PlainKeepsMembers(p.value, a.n);
    }
  }

  lemma RefusedIsBad(texts: seq<string>, parseAddr: string -> Option<Addr>, parsePrefix: string -> Option<Prefix>)
    ensures Bad in ReadFields(texts, parseAddr, parsePrefix) <==> SomeRefused(texts, parseAddr, parsePrefix)
  {
    var fs := ReadFields(texts, parseAddr, parsePrefix);
    forall i | 0 <= i < |texts| ensures fs[i].Bad? <==> EntryRefused(texts[i], parseAddr, parsePrefix) {
    }
    if i :| 0 <= i < |texts| && EntryRefused(texts[i], parseAddr, parsePrefix) {
      assert fs[i] == Bad;
    }
  }

  lemma NamedMeans(texts: seq<string>, a: Addr, parseAddr: string -> Option<Addr>,
      parsePrefix: string -> Option<Prefix>)
    requires Parsers(parseAddr, parsePrefix) && ValidAddr(a) && !SomeRefused(texts, parseAddr, parsePrefix)
    ensures Named(ReadFields(texts, parseAddr, parsePrefix), a) <==> SomeTrusts(texts, a, parseAddr, parsePrefix)
  {
    var fs := ReadFields(texts, parseAddr, parsePrefix);
    forall i | 0 <= i < |texts|
      ensures EntryTrusts(texts[i], a, parseAddr, parsePrefix) <==>
        fs[i].Range? && fs[i].p.bits <= Width(fs[i].p.addr) && Contains(fs[i].p, a)
    {
      assert !EntryRefused(texts[i], parseAddr, parsePrefix);
      FieldMeans(texts[i], a, parseAddr, parsePrefix);
    }
    if i :| 0 <= i < |texts| && EntryTrusts(texts[i], a, parseAddr, parsePrefix) {
      assert fs[i].Range? && Contains(fs[i].p, a);
    }
  }

  /**
    ParseTrustedProxies: refused exactly when an entry is; otherwise the list trusts exactly the
    addresses some entry stands for.
   */
  method ParseTrustedProxies(spec: string, parseAddr: string -> Option<Addr>, parsePrefix: string -> Option<Prefix>)
    returns (r: Option<seq<Prefix>>)
    requires Parsers(parseAddr, parsePrefix)
    ensures r.None? <==> SomeRefused(Split(spec), parseAddr, parsePrefix)
    ensures r.Some? ==> ProxiesOk(r.value)
    ensures r.Some? ==> forall a | ValidAddr(a) ::
              Trusted(r.value, a) <==> SomeTrusts(Split(spec), a, parseAddr, parsePrefix)
  {
    RefusedIsBad(Split(spec), parseAddr, parsePrefix);
    r := ReadProxies(spec, parseAddr, parsePrefix);
    if r.Some? {
      forall a | ValidAddr(a)
        ensures Trusted(r.value, a) <==> SomeTrusts(Split(spec), a, parseAddr, parsePrefix)
      {
        NamedMeans(Split(spec), a, parseAddr, parsePrefix);
      }
    }
  }

  /** Its loop: one masked range for each entry that is not blank. */
  method ReadProxies(spec: string, parseAddr: string -> Option<Addr>, parsePrefix: string -> Option<Prefix>)
    returns (r: Option<seq<Prefix>>)
    requires Parsers(parseAddr, parsePrefix)
    ensures r.None? <==> Bad in ReadFields(Split(spec), parseAddr, parsePrefix)
    ensures r.Some? ==> ProxiesOk(r.value)
    ensures r.Some? ==> forall a :: Trusted(r.value, a) <==> Named(ReadFields(Split(spec), parseAddr, parsePrefix), a)
  {
    var texts := Split(spec);
    ghost var fs := ReadFields(texts, parseAddr, parsePrefix);
    var prefixes: seq<Prefix> := [];
    for i := 0 to |texts|
      invariant Bad !in fs[..i] && ProxiesOk(prefixes)
      invariant forall a :: Trusted(prefixes, a) <==> Named(fs[..i], a)
    {
      FieldValid(texts[i], parseAddr, parsePrefix);
      assert fs[..i + 1] == fs[..i] + [fs[i]];
      match ReadField(texts[i], parseAddr, parsePrefix) {
        case Blank =>
          OneMoreBlank(fs[..i]);
        case Bad =>
          return None;
        case Range(p) =>
          OneMoreRange(prefixes, fs[..i], p);
          prefixes := prefixes + [Masked(p)];
      }
    }
    assert fs[..|texts|] == fs;
    r := Some(prefixes);
  }

  lemma OneMoreBlank(fs: seq<Field>)
    ensures forall a :: Named(fs + [Blank], a) <==> Named(fs, a)
  {
    forall a ensures Named(fs + [Blank], a) <==> Named(fs, a) {
      if i :| 0 <= i < |fs| && fs[i].Range? && fs[i].p.bits <= Width(fs[i].p.addr) && Contains(fs[i].p, a) {
        assert (fs + [Blank])[i] == fs[i];
      }
    }
  }

  lemma OneMoreRange(proxies: seq<Prefix>, fs: seq<Field>, p: Prefix)
    requires ProxiesOk(proxies) && ValidPrefix(p) && ValidPrefix(Masked(p))
    requires forall a :: Trusted(proxies, a) <==> Named(fs, a)
    ensures ProxiesOk(proxies + [Masked(p)])
    ensures forall a :: Trusted(proxies + [Masked(p)], a) <==> Named(fs + [Range(p)], a)
  {
    forall a ensures Trusted(proxies + [Masked(p)], a) <==> Named(fs + [Range(p)], a) {
      MaskedContains(p, a);
      TrustedAppend(proxies, Masked(p), a);
      NamedAppend(fs, p, a);
    }
  }

  lemma TrustedAppend(proxies: seq<Prefix>, p: Prefix, a: Addr)
    requires ProxiesOk(proxies) && ValidPrefix(p)
    ensures ProxiesOk(proxies + [p])
    ensures Trusted(proxies + [p], a) <==> Trusted(proxies, a) || Contains(p, a)
  {
    var more := proxies + [p];
    assert more[|proxies|] == p;
    if i :| 0 <= i < |proxies| && Contains(proxies[i], a) {
      assert more[i] == proxies[i];
    }
  }

  lemma NamedAppend(fs: seq<Field>, p: Prefix, a: Addr)
    requires ValidPrefix(p)
    ensures Named(fs + [Range(p)], a) <==> Named(fs, a) || Contains(p, a)
  {
    var more := fs + [Range(p)];
    assert more[|fs|] == Range(p);
    if i :| 0 <= i < |fs| && fs[i].Range? && fs[i].p.bits <= Width(fs[i].p.addr) && Contains(fs[i].p, a) {
      assert more[i] == fs[i];
    }
  }

  // ---- the walk ----

  /** trustedProxy */
  method TrustedProxy(proxies: seq<Prefix>, a: Addr) returns (r: bool)
    requires ProxiesOk(proxies)
    ensures r == Trusted(proxies, a)
  {
    for i := 0 to |proxies|
      invariant forall k | 0 <= k < i :: !Contains(proxies[k], a)
    {
      if Contains(proxies[i], a) {
        return true;
      }
    }
    r := false;
  }

  /** An entry as the walk sees it. */
  function ReadEntry(text: string, parseAddr: string -> Option<Addr>): Option<Addr> {
    var a := parseAddr(TrimSpace(text));
    if a.None? then None else Some(Unmap(a.value))
  }

  /** The entry is skipped: a trusted proxy. */
  ghost predicate Skipped(text: string, proxies: seq<Prefix>, parseAddr: string -> Option<Addr>)
    requires ProxiesOk(proxies)
  {
    var a := ReadEntry(text, parseAddr);
    a.Some? && Trusted(proxies, a.value)
  }

  /** The address a forwarded chain ends at: its rightmost entry that is no trusted proxy. */
  ghost function Resolve(entries: seq<string>, proxies: seq<Prefix>, parseAddr: string -> Option<Addr>): Option<Addr>
    requires ProxiesOk(proxies)
  {
    if entries == [] then None
    else
      var n := |entries| - 1;
      if Skipped(entries[n], proxies, parseAddr) then Resolve(entries[..n], proxies, parseAddr)
      else ReadEntry(entries[n], parseAddr)
  }

  /** The peer's own text, or a forwarded address. */
  datatype ClientKey = Peer(text: string) | Forwarded(a: Addr)

  ghost function ClientOf(peer: string, values: seq<string>, proxies: seq<Prefix>,
      parseAddr: string -> Option<Addr>): ClientKey
    requires ProxiesOk(proxies)
  {
    var p := parseAddr(peer);
    if p.None? || !Trusted(proxies, Unmap(p.value)) then Peer(peer)
    else
      var a := Resolve(AllEntries(values), proxies, parseAddr);
      if a.None? then Peer(peer) else Forwarded(a.value)
  }

  /** clientIP; `values` are the X-Forwarded-For lines. */
  method ClientIP(peer: string, values: seq<string>, proxies: seq<Prefix>, parseAddr: string -> Option<Addr>)
    returns (key: ClientKey)
    requires ProxiesOk(proxies)
    ensures key == ClientOf(peer, values, proxies, parseAddr)
  {
    var peerIP := parseAddr(peer);
    if peerIP.None? {
      return Peer(peer);
    }
    var direct := TrustedProxy(proxies, Unmap(peerIP.value));
    if !direct || |values| == 0 {
      return Peer(peer);
    }
    SplitOfJoin(values);
    var entries := Split(Join(values));
    assert entries[..|entries|] == entries;
    for i := |entries| downto 0
      invariant Resolve(entries[..i], proxies, parseAddr) == Resolve(entries, proxies, parseAddr)
    {
      assert entries[..i + 1][..i] == entries[..i];
      var entry := parseAddr(TrimSpace(entries[i]));
      if entry.None? {
        break;
      }
      var known := TrustedProxy(proxies, Unmap(entry.value));
      if !known {
        return Forwarded(Unmap(entry.value));
      }
    }
    return Peer(peer);
  }

  /** Entry i, trimmed, is the address a, or its mapped form. */
  predicate EntryIs(text: string, parseAddr: string -> Option<Addr>, a: Addr) {
    parseAddr(TrimSpace(text)).Some? && a == Unmap(parseAddr(TrimSpace(text)).value)
  }

  /** From entry i on to the right all are addresses of trusted proxies. */
  ghost predicate TrustedFrom(entries: seq<string>, i: nat, proxies: seq<Prefix>, parseAddr: string -> Option<Addr>)
    requires ProxiesOk(proxies)
  {
    forall k | i <= k < |entries| ::
      parseAddr(TrimSpace(entries[k])).Some? && Trusted(proxies, Unmap(parseAddr(TrimSpace(entries[k])).value))
  }

  lemma {:induction false} ResolveIsExact(entries: seq<string>, proxies: seq<Prefix>,
      parseAddr: string -> Option<Addr>, a: Addr)
    requires ProxiesOk(proxies)
    ensures Resolve(entries, proxies, parseAddr) == Some(a) <==>
      exists i :: 0 <= i < |entries| && EntryIs(entries[i], parseAddr, a) && !Trusted(proxies, a)
                  && TrustedFrom(entries, i + 1, proxies, parseAddr)
  {
    if entries == [] {
    } else {
      var n := |entries| - 1;
      if Skipped(entries[n], proxies, parseAddr) {
        ResolveIsExact(entries[..n], proxies, parseAddr, a);
        MoreTrusted(entries, proxies, parseAddr, a);
      } else {
        LastDecides(entries, proxies, parseAddr, a);
      }
    }
  }

  lemma LastDecides(entries: seq<string>, proxies: seq<Prefix>, parseAddr: string -> Option<Addr>, a: Addr)
    requires ProxiesOk(proxies) && entries != [] && !Skipped(entries[|entries| - 1], proxies, parseAddr)
    ensures Resolve(entries, proxies, parseAddr) == Some(a) <==>
      exists i :: 0 <= i < |entries| && EntryIs(entries[i], parseAddr, a) && !Trusted(proxies, a)
                  && TrustedFrom(entries, i + 1, proxies, parseAddr)
  {
    var n := |entries| - 1;
    if Resolve(entries, proxies, parseAddr) == Some(a) {
      assert EntryIs(entries[n], parseAddr, a) && TrustedFrom(entries, n + 1, proxies, parseAddr);
    }
    if i :| 0 <= i < |entries| && EntryIs(entries[i], parseAddr, a) && !Trusted(proxies, a)
            && TrustedFrom(entries, i + 1, proxies, parseAddr) {
      assert i == n;
    }
  }

  /** A trusted entry at the right end changes nothing. */
  lemma MoreTrusted(entries: seq<string>, proxies: seq<Prefix>, parseAddr: string -> Option<Addr>, a: Addr)
    requires ProxiesOk(proxies) && entries != [] && Skipped(entries[|entries| - 1], proxies, parseAddr)
    ensures var front := entries[..|entries| - 1];
      (exists i :: 0 <= i < |front| && EntryIs(front[i], parseAddr, a) && !Trusted(proxies, a)
                   && TrustedFrom(front, i + 1, proxies, parseAddr)) <==>
      (exists i :: 0 <= i < |entries| && EntryIs(entries[i], parseAddr, a) && !Trusted(proxies, a)
                   && TrustedFrom(entries, i + 1, proxies, parseAddr))
  {
    var front := entries[..|entries| - 1];
    if i :| 0 <= i < |front| && EntryIs(front[i], parseAddr, a) && !Trusted(proxies, a)
            && TrustedFrom(front, i + 1, proxies, parseAddr) {
      forall k | i + 1 <= k < |entries|
        ensures parseAddr(TrimSpace(entries[k])).Some?
        ensures Trusted(proxies, Unmap(parseAddr(TrimSpace(entries[k])).value))
      {
        assert k < |front| ==> front[k] == entries[k];
      }
      assert EntryIs(entries[i], parseAddr, a) && TrustedFrom(entries, i + 1, proxies, parseAddr);
    }
    if i :| 0 <= i < |entries| && EntryIs(entries[i], parseAddr, a) && !Trusted(proxies, a)
            && TrustedFrom(entries, i + 1, proxies, parseAddr) {
      assert i < |front| && front[i] == entries[i];
      assert EntryIs(front[i], parseAddr, a) && TrustedFrom(front, i + 1, proxies, parseAddr);
    }
  }

  /**
    A request counts for address a exactly if its peer is a trusted proxy and a is the rightmost
    entry of the chain that is no trusted proxy's; in every other case it counts for the peer.
   */
  lemma ClientIsExact(peer: string, values: seq<string>, proxies: seq<Prefix>, parseAddr: string -> Option<Addr>,
      a: Addr)
    requires ProxiesOk(proxies)
    ensures ClientOf(peer, values, proxies, parseAddr) == Forwarded(a) <==>
      && parseAddr(peer).Some? && Trusted(proxies, Unmap(parseAddr(peer).value))
      && values != []
      && var entries := Split(Join(values));
      exists i :: 0 <= i < |entries| && EntryIs(entries[i], parseAddr, a) && !Trusted(proxies, a)
                  && TrustedFrom(entries, i + 1, proxies, parseAddr)
    ensures ClientOf(peer, values, proxies, parseAddr).Peer? ==>
      ClientOf(peer, values, proxies, parseAddr) == Peer(peer)
  {
    if values != [] {
      SplitOfJoin(values);
    }
    ResolveIsExact(AllEntries(values), proxies, parseAddr, a);
  }

  // ---- what a client can and cannot influence ----

  /** The tail holds an entry the walk does not get past. */
  ghost predicate HasStop(entries: seq<string>, proxies: seq<Prefix>, parseAddr: string -> Option<Addr>)
    requires ProxiesOk(proxies)
  {
    exists i :: 0 <= i < |entries| && !Skipped(entries[i], proxies, parseAddr)
  }

  lemma {:induction false} PrependedEntries(extra: seq<string>, entries: seq<string>, proxies: seq<Prefix>,
      parseAddr: string -> Option<Addr>)
    requires ProxiesOk(proxies)
    ensures Resolve(extra + entries, proxies, parseAddr) ==
      if HasStop(entries, proxies, parseAddr) then Resolve(entries, proxies, parseAddr)
      else Resolve(extra, proxies, parseAddr)
  {
    if entries == [] {
      assert extra + entries == extra;
    } else {
      var n := |entries| - 1;
      assert (extra + entries)[|extra| + n] == entries[n] && (extra + entries)[..|extra| + n] == extra + entries[..n];
      if Skipped(entries[n], proxies, parseAddr) {
        PrependedEntries(extra, entries[..n], proxies, parseAddr);
        if i :| 0 <= i < |entries| && !Skipped(entries[i], proxies, parseAddr) {
          assert entries[..n][i] == entries[i];
        }
      }
    }
  }

  /**
    Once the lines a proxy appended hold an untrusted or malformed entry, header lines put in
    front of them never change the answer.
   */
  lemma PrependedLines(peer: string, lines: seq<string>, values: seq<string>, proxies: seq<Prefix>,
      parseAddr: string -> Option<Addr>)
    requires ProxiesOk(proxies) && HasStop(AllEntries(values), proxies, parseAddr)
    ensures ClientOf(peer, lines + values, proxies, parseAddr) == ClientOf(peer, values, proxies, parseAddr)
  {
    AllEntriesConcat(lines, values);
    PrependedEntries(AllEntries(lines), AllEntries(values), proxies, parseAddr);
  }

  lemma ConcatAssoc<T>(a: seq<T>, b: seq<T>, c: seq<T>)
    ensures a + b + c == a + (b + c)
  {
  }

  lemma FirstLine(first: string, rest: seq<string>)
    ensures AllEntries([first] + rest) == Split(first) + AllEntries(rest)
  {
    assert ([first] + rest)[1..] == rest;
  }

  lemma EntriesInLine(text: string, first: string, rest: seq<string>)
    ensures AllEntries([text + [COMMA] + first] + rest) == Split(text) + AllEntries([first] + rest)
  {
    FirstLine(text + [COMMA] + first, rest);
    FirstLine(first, rest);
    SplitAtComma(text, first);
    ConcatAssoc(Split(text), Split(first), AllEntries(rest));
  }

  /** The same for entries put in front within the first line. */
  lemma PrependedInLine(peer: string, text: string, first: string, rest: seq<string>, proxies: seq<Prefix>,
      parseAddr: string -> Option<Addr>)
    requires ProxiesOk(proxies) && HasStop(AllEntries([first] + rest), proxies, parseAddr)
    ensures ClientOf(peer, [text + [COMMA] + first] + rest, proxies, parseAddr)
         == ClientOf(peer, [first] + rest, proxies, parseAddr)
  {
    EntriesInLine(text, first, rest);
    PrependedEntries(Split(text), AllEntries([first] + rest), proxies, parseAddr);
  }

  /** Without such an entry the front decides: the condition is needed. */
  lemma FrontDecides(peer: string, lines: seq<string>, values: seq<string>, proxies: seq<Prefix>,
      parseAddr: string -> Option<Addr>)
    requires ProxiesOk(proxies) && !HasStop(AllEntries(values), proxies, parseAddr)
    ensures ClientOf(peer, lines + values, proxies, parseAddr) == ClientOf(peer, lines, proxies, parseAddr)
  {
    AllEntriesConcat(lines, values);
    PrependedEntries(AllEntries(lines), AllEntries(values), proxies, parseAddr);
  }

  /** The same within the first line. */
  lemma FrontInLineDecides(peer: string, text: string, first: string, rest: seq<string>, proxies: seq<Prefix>,
      parseAddr: string -> Option<Addr>)
    requires ProxiesOk(proxies) && !HasStop(AllEntries([first] + rest), proxies, parseAddr)
    ensures ClientOf(peer, [text + [COMMA] + first] + rest, proxies, parseAddr)
         == ClientOf(peer, [text], proxies, parseAddr)
  {
    EntriesInLine(text, first, rest);
    PrependedEntries(Split(text), AllEntries([first] + rest), proxies, parseAddr);
    OneLine(text);
  }

  lemma OneLine(text: string)
    ensures AllEntries([text]) == Split(text)
  {
    assert [text][1..] == [];
  }

  lemma {:induction false} SplitWhole(s: string)
    requires COMMA !in s
    ensures Split(s) == [s]
  {
    if s == "" {
    } else {
      SplitWhole(s[1..]);
      assert [s[0]] + s[1..] == s;
    }
  }

  function OneOrTwo(text: string): Option<Addr> {
    if text == "10.0.0.1" then Some(V4(0x0a00_0001)) else if text == "8.8.8.8" then Some(V4(0x0808_0808)) else None
  }

  /** A chain of one trusted proxy: the line a client puts in front of it becomes its address. */
  lemma FrontIsBelieved()
    ensures var proxies := [Prefix(V4(0x0a00_0000), 8)];
      && ProxiesOk(proxies)
      && ClientOf("10.0.0.1", ["10.0.0.1"], proxies, OneOrTwo) == Peer("10.0.0.1")
      && ClientOf("10.0.0.1", ["8.8.8.8", "10.0.0.1"], proxies, OneOrTwo) == Forwarded(V4(0x0808_0808))
  {
    var near, far, proxies := "10.0.0.1", "8.8.8.8", [Prefix(V4(0x0a00_0000), 8)];
    TenIsTrusted(proxies);
    PlainEntries(near, far);
    TextsRead();
    ResolveTwo(near, far, proxies, OneOrTwo);
  }

  lemma PlainEntries(near: string, far: string)
    requires COMMA !in near && COMMA !in far
    ensures AllEntries([near]) == [near] && AllEntries([far, near]) == [far, near]
  {
    SplitWhole(near);
    SplitWhole(far);
    OneLine(near);
    assert [far, near][1..] == [near];
  }

  lemma TextsRead()
    ensures ReadEntry("10.0.0.1", OneOrTwo) == Some(V4(0x0a00_0001))
    ensures ReadEntry("8.8.8.8", OneOrTwo) == Some(V4(0x0808_0808))
  {
    var near, far := "10.0.0.1", "8.8.8.8";
    assert near[0] == '1' && near[|near| - 1] == '1' && far[0] == '8' && far[|far| - 1] == '8';
    assert TrimSpace(near) == near && TrimSpace(far) == far;
  }

  lemma ResolveTwo(near: string, far: string, proxies: seq<Prefix>, parseAddr: string -> Option<Addr>)
    requires ProxiesOk(proxies) && Skipped(near, proxies, parseAddr) && !Skipped(far, proxies, parseAddr)
    ensures Resolve([near], proxies, parseAddr) == None
    ensures Resolve([far, near], proxies, parseAddr) == ReadEntry(far, parseAddr)
  {
    assert [far, near][..1] == [far] && [near][..0] == [];
  }

  lemma TenIsTrusted(proxies: seq<Prefix>)
    requires proxies == [Prefix(V4(0x0a00_0000), 8)]
    ensures ProxiesOk(proxies) && Trusted(proxies, V4(0x0a00_0001)) && !Trusted(proxies, V4(0x0808_0808))
  {
    Pow2Of8();
    Pow2Sum(8, 8);
    Pow2Sum(16, 8);
    assert Block(proxies[0]) == 0x100_0000;
    assert Contains(proxies[0], V4(0x0a00_0001));
  }

  /** A forwarded key is no trusted proxy: it is the rightmost entry (the i-th) that is not one. */
  lemma {:induction false} ForwardedIsUntrusted(entries: seq<string>, proxies: seq<Prefix>,
      parseAddr: string -> Option<Addr>)
    returns (i: nat)
    requires ProxiesOk(proxies) && Resolve(entries, proxies, parseAddr).Some?
    ensures !Trusted(proxies, Resolve(entries, proxies, parseAddr).value)
    ensures i < |entries| && ReadEntry(entries[i], parseAddr) == Resolve(entries, proxies, parseAddr)
    ensures forall k | i < k < |entries| :: Skipped(entries[k], proxies, parseAddr)
  {
    var n := |entries| - 1;
    i := n;
    if Skipped(entries[n], proxies, parseAddr) {
      i := ForwardedIsUntrusted(entries[..n], proxies, parseAddr);
      forall k | i < k < |entries| ensures Skipped(entries[k], proxies, parseAddr) {
        assert k < n ==> entries[..n][k] == entries[k];
      }
    }
  }
}
