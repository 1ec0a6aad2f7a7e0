/**
 The two walks over X-Forwarded-For: `resolve_forwarded_client_ip` in `app/core/client_ip.py` and
 `_real_client_ip` in `app/core/rate_limit.py`.
 */
module ProxyHeaders {
  import opened Wrappers
  import opened PythonText
  import opened Rows

  /** `ip_address`: the address in its canonical spelling, or a ValueError. */
  type Parser = string -> Option<string>

  /** A canonical spelling reads as itself. */
  ghost predicate Canonical(parse: Parser) {
    forall s :: parse(s).Some? ==> parse(parse(s).value) == parse(s)
  }

  /** A network, as the set of its addresses. */
  type Network = string -> bool

  predicate InSome(nets: seq<Network>, ip: string) {
    exists k :: 0 <= k < |nets| && nets[k](ip)
  }

  predicate Trusted(parse: Parser, nets: seq<Network>, text: string) {
    parse(text).Some? && InSome(nets, parse(text).value)
  }

  // The header's entries.

  function FieldsFrom(field: string, s: string): seq<string>
    decreases |s|
  {
    if s == "" then [field]
    else if s[0] == ',' then [field] + FieldsFrom("", s[1..])
    else FieldsFrom(field + [s[0]], s[1..])
  }

  function Entry(field: string): seq<string> {
    if Strip(field) != "" then [Strip(field)] else []
  }

  /** `[p.strip() for p in header.split(",") if p.strip()]` */
  function Entries(header: string): seq<string> {
    Collect(Entry, FieldsFrom("", header))
  }

  lemma NoEntries()
    ensures Entries("") == []
  {
    assert FieldsFrom("", "") == [""] && Strip("") == "";
    assert [""][1..] == [];
  }

  /** Text without a comma is one field. */
  lemma {:induction false} FieldsWithoutComma(field: string, s: string)
    requires ',' !in s
    ensures FieldsFrom(field, s) == [field + s]
    decreases |s|
  {
    if s == "" {
      assert field + s == field;
    } else {
      FieldsWithoutComma(field + [s[0]], s[1..]);
      assert field + [s[0]] + s[1..] == field + s;
    }
  }

  /** The entries are the fields between commas that are not blank, stripped, in order. */
  lemma EntriesAreFields(header: string) returns (fields: seq<string>)
    ensures Filtered(FieldsFrom("", header), field => !Blank(field), fields)
    ensures |Entries(header)| == |fields| && forall k :: 0 <= k < |fields| ==> Entries(header)[k] == Strip(fields[k])
  {
    fields := CollectIsFiltered(FieldsFrom("", header), field => !Blank(field));
  }

  lemma {:induction false} CollectIsFiltered(q: seq<string>, keep: string -> bool) returns (fields: seq<string>)
    requires forall field :: keep(field) <==> !Blank(field)
    ensures Filtered(q, keep, fields)
    ensures |Collect(Entry, q)| == |fields|
    ensures forall k :: 0 <= k < |fields| ==> Collect(Entry, q)[k] == Strip(fields[k])
  {
    if q == [] {
      fields := [];
      FilteredNothing(keep);
    } else {
      var init, last := q[..|q| - 1], q[|q| - 1];
      var before := CollectIsFiltered(init, keep);
      fields := before + if keep(last) then [last] else [];
      FilteredSnoc(init, keep, before, last);
      CollectConcat(Entry, init, [last]);
      StripBlank(last);
      assert init + [last] == q;
      assert Collect(Entry, [last]) == Entry(last) + Collect(Entry, [last][1..]);
      assert Collect(Entry, [last]) == Entry(last);
    }
  }

  lemma {:induction false} FieldsAtComma(field: string, s: string, t: string)
    ensures FieldsFrom(field, s + "," + t) == FieldsFrom(field, s) + FieldsFrom("", t)
    decreases |s|
  {
    var whole := s + "," + t;
    if s == "" {
      assert whole[0] == ',' && whole[1..] == t;
    } else {
      assert whole[0] == s[0] && whole[1..] == s[1..] + "," + t;
      if s[0] == ',' { FieldsAtComma("", s[1..], t); } else { FieldsAtComma(field + [s[0]], s[1..], t); }
    }
  }

  lemma EntriesAtComma(text: string, header: string)
    ensures Entries(text + "," + header) == Entries(text) + Entries(header)
  {
    FieldsAtComma("", text, header);
    CollectConcat(Entry, FieldsFrom("", text), FieldsFrom("", header));
  }

  // The two walks.

  /** The scan from the right: the first entry that is not trusted. */
  function LastUntrusted(isTrusted: string -> bool, entries: seq<string>): Option<string> {
    if entries == [] then None
    else if isTrusted(entries[|entries| - 1]) then LastUntrusted(isTrusted, entries[..|entries| - 1])
    else Some(entries[|entries| - 1])
  }

  /** `resolve_forwarded_client_ip`; `isTrusted` is `is_ip_in_cidrs` on the configured list. */
  function ResolveForwarded(isTrusted: string -> bool, configured: bool, peer: Option<string>,
                            header: Option<string>): Option<string> {
    if peer.None? || peer.value == "" then None
    else if !configured || !isTrusted(peer.value) then peer
    else if header.None? || header.value == "" then peer
    else
      var candidate := LastUntrusted(isTrusted, Entries(header.value));
      if candidate.Some? then candidate else peer
  }

  /** The other scan also passes over entries that are no addresses, and spells the one it finds canonically. */
  function LastParsedUntrusted(parse: Parser, nets: seq<Network>, entries: seq<string>): Option<string> {
    if entries == [] then None
    else
      var parsed := parse(entries[|entries| - 1]);
      if parsed.Some? && !InSome(nets, parsed.value) then parsed
      else LastParsedUntrusted(parse, nets, entries[..|entries| - 1])
  }

  function RealClient(parse: Parser, nets: seq<Network>, peer: Option<string>, header: string): string {
    var direct := if peer.Some? then peer.value else "0.0.0.0";
    if !Trusted(parse, nets, direct) then direct
    else
      var candidate := LastParsedUntrusted(parse, nets, Entries(header));
      if candidate.Some? then candidate.value else direct
  }

  /** `_real_client_ip` */
  method RealClientIp(parse: Parser, nets: seq<Network>, client: Option<string>, header: string) returns (ip: string)
    ensures ip == RealClient(parse, nets, client, header)
  {
    var peer := if client.Some? then client.value else "0.0.0.0";
    if nets == [] { return peer; }
    var peerIp := parse(peer);
    if peerIp.None? || !InSome(nets, peerIp.value) { return peer; }
    if header == "" {
      NoEntries();
      return peer;
    }
    var parts := Entries(header);
    var i := |parts|;
    assert parts[..i] == parts;
    while i > 0
      invariant 0 <= i <= |parts|
      invariant LastParsedUntrusted(parse, nets, parts[..i]) == LastParsedUntrusted(parse, nets, parts)
    {
      i := i - 1;
      assert parts[..i + 1][..i] == parts[..i];
      var candidate := parse(parts[i]);
      if candidate.None? || InSome(nets, candidate.value) {
        continue;
      }
      return candidate.value;
    }
    return peer;
  }

  // What they return.

  ghost predicate IsLast(entries: seq<string>, k: int, e: string, skips: string -> bool) {
    && 0 <= k < |entries| && entries[k] == e && !skips(e)
    && forall j :: k < j < |entries| ==> skips(entries[j])
  }

  lemma {:induction false} LastUntrustedIsLast(isTrusted: string -> bool, entries: seq<string>)
    ensures LastUntrusted(isTrusted, entries).None? <==> forall k :: 0 <= k < |entries| ==> isTrusted(entries[k])
    ensures forall e :: LastUntrusted(isTrusted, entries) == Some(e) <==> exists k :: IsLast(entries, k, e, isTrusted)
  {
    if entries != [] {
      var init, last := entries[..|entries| - 1], entries[|entries| - 1];
      LastUntrustedIsLast(isTrusted, init);
      forall e ensures LastUntrusted(isTrusted, entries) == Some(e) <==> exists k :: IsLast(entries, k, e, isTrusted) {
        if isTrusted(last) {
          if k :| IsLast(init, k, e, isTrusted) { assert IsLast(entries, k, e, isTrusted); }
          if k :| IsLast(entries, k, e, isTrusted) { assert IsLast(init, k, e, isTrusted); }
        } else {
          assert IsLast(entries, |entries| - 1, last, isTrusted);
        }
      }
    }
  }

  /** Without a peer there is no address, and without a header the peer is the address. */
  lemma ResolvedWithoutHeader(isTrusted: string -> bool, configured: bool, peer: Option<string>, header: Option<string>)
    ensures peer.None? || peer == Some("") ==> ResolveForwarded(isTrusted, configured, peer, header).None?
    ensures peer.Some? && peer != Some("") && header.None? ==>
              ResolveForwarded(isTrusted, configured, peer, header) == peer
  {
  }

  /** The peer, or the rightmost entry that is not trusted when the peer is. */
  lemma ResolvedIsPeerOrLast(isTrusted: string -> bool, configured: bool, peer: string, header: string)
    requires peer != ""
    ensures var ip := ResolveForwarded(isTrusted, configured, Some(peer), Some(header));
            && (ip != Some(peer) ==> configured && isTrusted(peer))
            && (ip == Some(peer) || exists k, e :: ip == Some(e) && IsLast(Entries(header), k, e, isTrusted))
            && (configured && isTrusted(peer) ==>
                  forall k, e :: IsLast(Entries(header), k, e, isTrusted) ==> ip == Some(e))
  {
    LastUntrustedIsLast(isTrusted, Entries(header));
    NoEntries();
  }

  /** What the rate limiter's scan passes over. */
  predicate Skips(parse: Parser, nets: seq<Network>, text: string) {
    parse(text).None? || InSome(nets, parse(text).value)
  }

  lemma {:induction false} LastParsedIsLast(parse: Parser, nets: seq<Network>, entries: seq<string>)
    ensures var skips := text => Skips(parse, nets, text);
            && (LastParsedUntrusted(parse, nets, entries).None? <==>
                  forall k :: 0 <= k < |entries| ==> skips(entries[k]))
            && (forall a :: LastParsedUntrusted(parse, nets, entries) == Some(a) <==>
                  exists k, e :: IsLast(entries, k, e, skips) && parse(e) == Some(a))
  {
    var skips := text => Skips(parse, nets, text);
    if entries != [] {
      var init, last := entries[..|entries| - 1], entries[|entries| - 1];
      LastParsedIsLast(parse, nets, init);
      forall a
        ensures LastParsedUntrusted(parse, nets, entries) == Some(a) <==>
                exists k, e :: IsLast(entries, k, e, skips) && parse(e) == Some(a)
      {
        if skips(last) {
          if k, e :| IsLast(init, k, e, skips) && parse(e) == Some(a) { assert IsLast(entries, k, e, skips); }
          if k, e :| IsLast(entries, k, e, skips) && parse(e) == Some(a) { assert IsLast(init, k, e, skips); }
        } else {
          assert IsLast(entries, |entries| - 1, last, skips);
        }
      }
    }
  }

  /** The limiter's answer: the peer, or the address of the rightmost entry that is an untrusted address. */
  lemma RealClientIsPeerOrLast(parse: Parser, nets: seq<Network>, peer: Option<string>, header: string)
    ensures var skips := text => Skips(parse, nets, text);
            var direct := if peer.Some? then peer.value else "0.0.0.0";
            var ip := RealClient(parse, nets, peer, header);
            && (ip != direct ==> Trusted(parse, nets, direct))
            && (ip == direct || exists k, e :: IsLast(Entries(header), k, e, skips) && parse(e) == Some(ip))
            && (Trusted(parse, nets, direct) ==>
                  forall k, e :: IsLast(Entries(header), k, e, skips) ==> parse(e) == Some(ip))
  {
    var skips := text => Skips(parse, nets, text);
    LastParsedIsLast(parse, nets, Entries(header));
    var direct := if peer.Some? then peer.value else "0.0.0.0";
    forall k, e | Trusted(parse, nets, direct) && IsLast(Entries(header), k, e, skips)
      ensures parse(e) == Some(RealClient(parse, nets, peer, header))
    {
      assert parse(e) == Some(parse(e).value);
    }
  }

  lemma {:induction false} LastUntrustedConcat(isTrusted: string -> bool, a: seq<string>, b: seq<string>)
    ensures LastUntrusted(isTrusted, a + b) ==
            if LastUntrusted(isTrusted, b).Some? then LastUntrusted(isTrusted, b) else LastUntrusted(isTrusted, a)
  {
    if b == [] {
      assert a + b == a;
    } else {
      LastUntrustedConcat(isTrusted, a, b[..|b| - 1]);
      assert (a + b)[..|a + b| - 1] == a + b[..|b| - 1];
    }
  }

  lemma {:induction false} LastParsedConcat(parse: Parser, nets: seq<Network>, a: seq<string>, b: seq<string>)
    ensures LastParsedUntrusted(parse, nets, a + b) ==
            if LastParsedUntrusted(parse, nets, b).Some? then LastParsedUntrusted(parse, nets, b)
            else LastParsedUntrusted(parse, nets, a)
  {
    if b == [] {
      assert a + b == a;
    } else {
      LastParsedConcat(parse, nets, a, b[..|b| - 1]);
      assert (a + b)[..|a + b| - 1] == a + b[..|b| - 1];
    }
  }

  /** Text put in front of a header counts only when the header itself has no untrusted entry. */
  lemma PrependedText(isTrusted: string -> bool, configured: bool, peer: Option<string>, text: string, header: string)
    ensures ResolveForwarded(isTrusted, configured, peer, Some(text + "," + header)) ==
            if LastUntrusted(isTrusted, Entries(header)).Some?
            then ResolveForwarded(isTrusted, configured, peer, Some(header))
            else ResolveForwarded(isTrusted, configured, peer, Some(text))
  {
    NoEntries();
    EntriesAtComma(text, header);
    LastUntrustedConcat(isTrusted, Entries(text), Entries(header));
  }

  lemma PrependedTextForLimiter(parse: Parser, nets: seq<Network>, peer: Option<string>, text: string, header: string)
    ensures RealClient(parse, nets, peer, text + "," + header) ==
            if LastParsedUntrusted(parse, nets, Entries(header)).Some?
            then RealClient(parse, nets, peer, header)
            else RealClient(parse, nets, peer, text)
  {
    EntriesAtComma(text, header);
    LastParsedConcat(parse, nets, Entries(text), Entries(header));
  }

  // The two compared.

  /** The same text, or two spellings of one address. */
  predicate SameAddress(parse: Parser, a: string, b: string) {
    a == b || (parse(a).Some? && parse(a) == parse(b))
  }

  lemma {:induction false} WalksCompared(parse: Parser, nets: seq<Network>, isTrusted: string -> bool,
                                         entries: seq<string>)
    requires forall s :: isTrusted(s) <==> Trusted(parse, nets, s)
    ensures var e := LastUntrusted(isTrusted, entries);
            && (e.None? ==> LastParsedUntrusted(parse, nets, entries).None?)
            && (e.Some? && parse(e.value).Some? ==> LastParsedUntrusted(parse, nets, entries) == parse(e.value))
    ensures var p := LastParsedUntrusted(parse, nets, entries);
            p.Some? ==> exists k :: 0 <= k < |entries| && parse(entries[k]) == p
  {
    if entries != [] {
      var init := entries[..|entries| - 1];
      WalksCompared(parse, nets, isTrusted, init);
      var p := LastParsedUntrusted(parse, nets, init);
      if p.Some? {
        var k :| 0 <= k < |init| && parse(init[k]) == p;
        assert parse(entries[k]) == p;
      }
    }
  }

  /**
   With one list of networks, the two name the same address unless the peer is trusted and the rightmost
   untrusted entry is no address; in particular whenever every entry is one.
   */
  lemma WalksAgree(parse: Parser, nets: seq<Network>, isTrusted: string -> bool, configured: bool, peer: string,
                   header: string)
    requires Canonical(parse) && forall s :: isTrusted(s) <==> Trusted(parse, nets, s)
    requires peer != "" && (nets != [] ==> configured)
    ensures var ip := ResolveForwarded(isTrusted, configured, Some(peer), Some(header));
            var last := LastUntrusted(isTrusted, Entries(header));
            && ip.Some?
            && (SameAddress(parse, ip.value, RealClient(parse, nets, Some(peer), header)) <==>
                  !isTrusted(peer) || last.None? || parse(last.value).Some?)
  {
    var entries := Entries(header);
    WalksCompared(parse, nets, isTrusted, entries);
    NoEntries();
    var p := LastParsedUntrusted(parse, nets, entries);
    if p.Some? {
      var k :| 0 <= k < |entries| && parse(entries[k]) == p;
      assert parse(p.value) == p;
    }
  }

  lemma WalksAgreeOnAddresses(parse: Parser, nets: seq<Network>, isTrusted: string -> bool, configured: bool,
                              peer: string, header: string)
    requires Canonical(parse) && forall s :: isTrusted(s) <==> Trusted(parse, nets, s)
    requires peer != "" && (nets != [] ==> configured)
    requires forall k :: 0 <= k < |Entries(header)| ==> parse(Entries(header)[k]).Some?
    ensures var ip := ResolveForwarded(isTrusted, configured, Some(peer), Some(header));
            ip.Some? && SameAddress(parse, ip.value, RealClient(parse, nets, Some(peer), header))
  {
    WalksAgree(parse, nets, isTrusted, configured, peer, header);
    LastUntrustedIsLast(isTrusted, Entries(header));
    var last := LastUntrusted(isTrusted, Entries(header));
    if last.Some? {
      var k :| IsLast(Entries(header), k, last.value, isTrusted);
    }
  }
}
