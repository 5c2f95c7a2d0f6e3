/**
 * Continuation tokens of an object listing - the unpadded base64url form
 * (section 5 of RFC 4648) of a decimal offset - and the walk they carry.
 */
module ListCursor {
  import opened Prelude
  import opened StoragePaths
  import ObjectTree

  const U32_MAX: nat := 0xFFFF_FFFF
  const U64_MAX: nat := 0xFFFF_FFFF_FFFF_FFFF

  // ─── base64url, unpadded ────────────────────────────────────────────────

  type sextet = v: nat | v < 64

  function SextetChar(v: sextet): char
  {
    if v < 26 then (('A' as int) + v) as char
    else if v < 52 then (('a' as int) + v - 26) as char
    else if v < 62 then (('0' as int) + v - 52) as char
    else if v == 62 then '-' else '_'
  }

  function CharSextet(c: char): Option<sextet>
  {
    if 'A' <= c <= 'Z' then Some(c as int - 'A' as int)
    else if 'a' <= c <= 'z' then Some(c as int - 'a' as int + 26)
    else if '0' <= c <= '9' then Some(c as int - '0' as int + 52)
    else if c == '-' then Some(62)
    else if c == '_' then Some(63)
    else None
  }

  lemma SextetRoundTrip(v: sextet, c: char)
    ensures CharSextet(SextetChar(v)) == Some(v)
    ensures CharSextet(c).Some? ==> SextetChar(CharSextet(c).value) == c
  {
  }

  type octet = b: nat | b < 256

  /** Three octets as four sextets, and a short last group padded with zero bits. */
  function Sextets(b: seq<octet>): seq<sextet>
  {
    if |b| == 0 then []
    else if |b| == 1 then [b[0] / 4, b[0] % 4 * 16]
    else if |b| == 2 then [b[0] / 4, b[0] % 4 * 16 + b[1] / 16, b[1] % 16 * 4]
    else Group(b[0], b[1], b[2]) + Sextets(b[3..])
  }

  function Group(b0: octet, b1: octet, b2: octet): (r: seq<sextet>)
    ensures |r| == 4
  {
    [b0 / 4, b0 % 4 * 16 + b1 / 16, b1 % 16 * 4 + b2 / 64, b2 % 64]
  }

  function Ungroup(v0: sextet, v1: sextet, v2: sextet, v3: sextet): (r: seq<octet>)
    ensures |r| == 3
  {
    [High(v0, v1), Middle(v1, v2), Low(v2, v3)]
  }

  function High(v0: sextet, v1: sextet): octet { v0 * 4 + v1 / 16 }

  function Middle(v1: sextet, v2: sextet): octet { v1 % 16 * 16 + v2 / 4 }

  function Low(v2: sextet, v3: sextet): octet { v2 % 4 * 64 + v3 }

  /** Refuses a length no encoding has, and padding bits that are set. */
  function Octets(v: seq<sextet>): Option<seq<octet>>
  {
    if |v| == 0 then Some([])
    else if |v| == 1 then None
    else if |v| == 2 then (if v[1] % 16 == 0 then Some([High(v[0], v[1])]) else None)
    else if |v| == 3 then
      (if v[2] % 4 == 0 then Some([High(v[0], v[1]), Middle(v[1], v[2])]) else None)
    else
      match Octets(v[4..])
      case None => None
      case Some(rest) => Some(Ungroup(v[0], v[1], v[2], v[3]) + rest)
  }

  lemma GroupUngroup(b0: octet, b1: octet, b2: octet)
    ensures var g := Group(b0, b1, b2); Ungroup(g[0], g[1], g[2], g[3]) == [b0, b1, b2]
  {
    FirstRejoins(b0, b1);
    MiddleRejoins(b0, b1, b2);
    LastRejoins(b1, b2);
  }

  lemma FirstRejoins(b0: octet, b1: octet)
    ensures High(b0 / 4, b0 % 4 * 16 + b1 / 16) == b0
  {
  }

  lemma MiddleRejoins(b0: octet, b1: octet, b2: octet)
    ensures Middle(b0 % 4 * 16 + b1 / 16, b1 % 16 * 4 + b2 / 64) == b1
  {
    MiddleOf(b0 % 4, b1 / 16, b1 % 16, b2 / 64);
  }

  lemma MiddleOf(before: nat, high: nat, low: nat, after: nat)
    requires before < 4 && high < 16 && low < 16 && after < 4
    ensures Middle(before * 16 + high, low * 4 + after) == high * 16 + low
  {
  }

  lemma LastRejoins(b1: octet, b2: octet)
    ensures Low(b1 % 16 * 4 + b2 / 64, b2 % 64) == b2
  {
  }

  // Each octet splits where two sextets met.

  lemma HighSplits(v0: sextet, v1: sextet)
    ensures High(v0, v1) / 4 == v0 && High(v0, v1) % 4 == v1 / 16
  {
  }

  lemma MiddleSplits(v1: sextet, v2: sextet)
    ensures Middle(v1, v2) / 16 == v1 % 16 && Middle(v1, v2) % 16 == v2 / 4
  {
  }

  lemma LowSplits(v2: sextet, v3: sextet)
    ensures Low(v2, v3) / 64 == v2 % 4 && Low(v2, v3) % 64 == v3
  {
  }

  lemma SecondRejoins(v0: sextet, v1: sextet, v2: sextet)
    ensures High(v0, v1) % 4 * 16 + Middle(v1, v2) / 16 == v1
  {
    HighSplits(v0, v1);
    MiddleSplits(v1, v2);
  }

  lemma ThirdRejoins(v1: sextet, v2: sextet, v3: sextet)
    ensures Middle(v1, v2) % 16 * 4 + Low(v2, v3) / 64 == v2
  {
    MiddleSplits(v1, v2);
    LowSplits(v2, v3);
  }

  lemma UngroupGroup(v0: sextet, v1: sextet, v2: sextet, v3: sextet)
    ensures var u := Ungroup(v0, v1, v2, v3); Group(u[0], u[1], u[2]) == [v0, v1, v2, v3]
  {
    HighSplits(v0, v1);
    SecondRejoins(v0, v1, v2);
    ThirdRejoins(v1, v2, v3);
    LowSplits(v2, v3);
  }

  lemma OneOctet(b0: octet)
    ensures Octets([b0 / 4, b0 % 4 * 16]) == Some([b0])
  {
    FirstRejoins(b0, 0);
  }

  lemma TwoOctets(b0: octet, b1: octet)
    ensures Octets([b0 / 4, b0 % 4 * 16 + b1 / 16, b1 % 16 * 4]) == Some([b0, b1])
  {
    var v0, v1, v2 := b0 / 4, b0 % 4 * 16 + b1 / 16, b1 % 16 * 4;
    FirstRejoins(b0, b1);
    MiddleRejoins(b0, b1, 0);
    ShortPadding(b1 % 16);
    assert Octets([v0, v1, v2]) == Some([High(v0, v1), Middle(v1, v2)]);
  }

  lemma ShortPadding(low: nat)
    ensures low * 4 % 4 == 0
  {
  }

  lemma {:induction false} OctetsSextets(b: seq<octet>)
    ensures Octets(Sextets(b)) == Some(b)
  {
    if |b| == 1 {
      OneOctet(b[0]);
      assert [b[0]] == b;
    } else if |b| == 2 {
      TwoOctets(b[0], b[1]);
      assert [b[0], b[1]] == b;
    } else if |b| > 2 {
      OctetsSextets(b[3..]);
      GroupUngroup(b[0], b[1], b[2]);
      assert Sextets(b)[4..] == Sextets(b[3..]);
      assert [b[0], b[1], b[2]] + b[3..] == b;
    }
  }

  lemma ShortTails(v0: sextet, v1: sextet, v2: sextet)
    ensures v1 % 16 == 0 ==> Sextets([High(v0, v1)]) == [v0, v1]
    ensures v2 % 4 == 0 ==> Sextets([High(v0, v1), Middle(v1, v2)]) == [v0, v1, v2]
  {
    HighSplits(v0, v1);
    MiddleSplits(v1, v2);
    SecondRejoins(v0, v1, v2);
  }

  lemma {:induction false} SextetsOctets(v: seq<sextet>)
    requires Octets(v).Some?
    ensures Sextets(Octets(v).value) == v
  {
    if |v| == 2 {
      ShortTails(v[0], v[1], 0);
      assert [v[0], v[1]] == v;
    } else if |v| == 3 {
      ShortTails(v[0], v[1], v[2]);
      assert [v[0], v[1], v[2]] == v;
    } else if |v| > 3 {
      SextetsOctets(v[4..]);
      UngroupGroup(v[0], v[1], v[2], v[3]);
      assert Octets(v).value[3..] == Octets(v[4..]).value;
      assert [v[0], v[1], v[2], v[3]] + v[4..] == v;
    }
  }

  function Text(v: seq<sextet>): string
  {
    seq(|v|, i requires 0 <= i < |v| => SextetChar(v[i]))
  }

  predicate InAlphabet(t: string)
  {
    forall i :: 0 <= i < |t| ==> CharSextet(t[i]).Some?
  }

  function Values(t: string): seq<sextet>
    requires InAlphabet(t)
  {
    seq(|t|, i requires 0 <= i < |t| => CharSextet(t[i]).value)
  }

  function Encode64(b: seq<octet>): string
  {
    Text(Sextets(b))
  }

  function Decode64(t: string): Option<seq<octet>>
  {
    if InAlphabet(t) then Octets(Values(t)) else None
  }

  lemma Decode64Encode64(b: seq<octet>)
    ensures Decode64(Encode64(b)) == Some(b)
  {
    var v, t := Sextets(b), Encode64(b);
    forall i | 0 <= i < |t| ensures CharSextet(t[i]) == Some(v[i]) {
      SextetRoundTrip(v[i], t[i]);
    }
    assert Values(t) == v;
    OctetsSextets(b);
  }

  /** Only an encoding decodes: one token, one string of bytes. */
  lemma Encode64Decode64(t: string)
    requires Decode64(t).Some?
    ensures Encode64(Decode64(t).value) == t
  {
    SextetsOctets(Values(t));
    forall i | 0 <= i < |t| ensures SextetChar(Values(t)[i]) == t[i] {
      SextetRoundTrip(0, t[i]);
    }
    assert Text(Values(t)) == t;
  }

  // ─── Decimal ────────────────────────────────────────────────────────────

  const ZERO: nat := '0' as int
  const PLUS: nat := '+' as int

  /** `u64::to_string`, as bytes. */
  function ToDecimal(n: nat): seq<octet>
  {
    if n < 10 then [ZERO + n] else ToDecimal(n / 10) + [ZERO + n % 10]
  }

  function DigitsValue(text: seq<octet>): Option<nat>
  {
    if text == [] then Some(0)
    else
      var last := text[|text| - 1];
      if DigitsValue(text[..|text| - 1]).None? || !(ZERO <= last <= ZERO + 9) then None
      else Some(DigitsValue(text[..|text| - 1]).value * 10 + (last - ZERO))
  }

  /** `str::parse::<u64>`: an optional sign, then at least one digit, in range. */
  function ParseU64(text: seq<octet>): Option<nat>
  {
    var digits := if |text| > 1 && text[0] == PLUS then text[1..] else text;
    if digits == [] || DigitsValue(digits).None? || DigitsValue(digits).value > U64_MAX then None
    else DigitsValue(digits)
  }

  lemma {:induction false} DecimalValue(n: nat)
    ensures DigitsValue(ToDecimal(n)) == Some(n)
    ensures ToDecimal(n) != [] && ToDecimal(n)[0] != PLUS
  {
    if n >= 10 {
      DecimalValue(n / 10);
      assert ToDecimal(n)[..|ToDecimal(n)| - 1] == ToDecimal(n / 10);
    } else {
      assert ToDecimal(n)[..0] == [];
    }
  }

  // ─── The token ──────────────────────────────────────────────────────────

  function Encode(offset: nat): string
  {
    Encode64(ToDecimal(offset))
  }

  /** `None` is the client error a malformed cursor gets. */
  function Decode(cursor: string): Option<nat>
  {
    if cursor == "" then Some(0)
    else if Decode64(cursor).None? then None
    else ParseU64(Decode64(cursor).value)
  }

  /** Every offset comes back from its token, and no token is the empty cursor. */
  lemma DecodeEncode(n: nat)
    requires n <= U64_MAX
    ensures Decode(Encode(n)) == Some(n) && Encode(n) != ""
  {
    Decode64Encode64(ToDecimal(n));
    DecimalValue(n);
  }

  /** An offset the source's u64 cannot hold has a token, and the token is refused. */
  lemma TooLargeIsRefused(n: nat)
    requires n > U64_MAX
    ensures Decode(Encode(n)).None?
  {
    Decode64Encode64(ToDecimal(n));
    DecimalValue(n);
  }

  /** A sign is accepted, as `str::parse` does; nothing but digits may follow it, and something must. */
  lemma SignedIsRead(n: nat, text: seq<octet>, at: nat)
    ensures n <= U64_MAX ==> ParseU64([PLUS as octet] + ToDecimal(n)) == Some(n)
    ensures ParseU64([]) == None && ParseU64([PLUS as octet]) == None
    ensures at < |text| && at > 0 && !(ZERO <= text[at] <= ZERO + 9) ==> ParseU64(text) == None
  {
    DecimalValue(n);
    assert ([PLUS as octet] + ToDecimal(n))[1..] == ToDecimal(n);
    if at < |text| && at > 0 && !(ZERO <= text[at] <= ZERO + 9) {
      NoValue(text, at);
      NoValue(text[1..], at - 1);
    }
  }

  lemma {:induction false} NoValue(text: seq<octet>, at: nat)
    requires at < |text| && !(ZERO <= text[at] <= ZERO + 9)
    ensures DigitsValue(text) == None
  {
    if at < |text| - 1 { NoValue(text[..|text| - 1], at); }
  }

  /** The alphabet and the grouping are those of section 5 of RFC 4648. */
  lemma KnownTokens()
    ensures Encode64([0x66]) == "Zg" && Encode64([0x66, 0x6f]) == "Zm8" && Encode64([0x66, 0x6f, 0x6f]) == "Zm9v"
    ensures Encode64([0xfb, 0xff]) == "-_8" && Encode(0) == "MA"
  {
    assert Sextets([0x66]) == [25, 32];
    assert Sextets([0x66, 0x6f]) == [25, 38, 60];
    assert [0x66, 0x6f, 0x6f][3..] == [];
    assert Sextets([0x66, 0x6f, 0x6f]) == [25, 38, 61, 47];
    assert Sextets([0xfb, 0xff]) == [62, 63, 60];
    assert ToDecimal(0) == [48] && Sextets([48]) == [12, 0];
  }

  /** The cursors that decode are the empty one and the encodings of decimal numbers. */
  lemma DecodesIff(cursor: string, n: nat)
    ensures Decode(cursor) == Some(n) <==>
            (cursor == "" && n == 0)
            || (cursor != "" && exists text :: ParseU64(text) == Some(n) && cursor == Encode64(text))
  {
    if cursor != "" {
      if Decode64(cursor).Some? { Encode64Decode64(cursor); }
      forall text | cursor == Encode64(text) ensures Decode64(cursor) == Some(text) {
        Decode64Encode64(text);
      }
    }
  }

  // ─── Listing and walking ────────────────────────────────────────────────

  /** The walk needs no more of its tokens than that an offset survives one. */
  datatype Codec = Codec(encode: nat -> string, decode: string -> Option<nat>)

  ghost predicate Faithful(c: Codec)
  {
    c.decode("") == Some(0) && forall n: nat :: n <= U64_MAX ==> c.decode(c.encode(n)) == Some(n)
  }

  const TOKENS := Codec((n: nat) => Encode(n), (cursor: string) => Decode(cursor))

  lemma TokensAreFaithful()
    ensures Faithful(TOKENS)
  {
    forall n: nat | n <= U64_MAX ensures TOKENS.decode(TOKENS.encode(n)) == Some(n) {
      DecodeEncode(n);
    }
  }

  datatype Page = Page(keys: seq<string>, total: nat, next: Option<string>)

  /** The bridge's page: `keys.slice(offset, limit > 0 ? offset + limit : undefined)`. */
  function Slice(keys: seq<string>, limit: nat, offset: nat): seq<string>
  {
    var from := if offset <= |keys| then offset else |keys|;
    if limit > 0 && from + limit < |keys| then keys[from..from + limit] else keys[from..]
  }

  function ClampOffset(offset: nat): nat
  {
    if offset <= U32_MAX then offset else U32_MAX
  }

  /** `opts.limit as u32`, and 0 - no limit - for a limit that is not positive. */
  function Limit32(limit: int): nat
  {
    if limit > 0 then limit % 0x1_0000_0000 else 0
  }

  function NextPageCursor(c: Codec, cursorMode: bool, start: nat, pageLength: nat, total: nat): Option<string>
  {
    var end := if start + pageLength <= U64_MAX then start + pageLength else U64_MAX;
    if cursorMode && end < total then Some(c.encode(end)) else None
  }

  /** `list` over the sorted keys that match: a cursor, when there is one, beats the offset. */
  function List(c: Codec, keys: seq<string>, cursor: Option<string>, offset: int, limit: int): (r: Option<Page>)
  {
    if cursor.Some? && c.decode(cursor.value).None? then None
    else
      var start := if cursor.Some? then c.decode(cursor.value).value else if offset > 0 then offset else 0;
      var page := Slice(keys, Limit32(limit), ClampOffset(start));
      Some(Page(page, |keys|, NextPageCursor(c, cursor.Some?, start, |page|, |keys|)))
  }

  /**
   * Paging by offset, with no cursor: from the offset (the start for a negative
   * one, the end for one past it; 32 bits at most), as many keys as the limit
   * allows - its low 32 bits, and all the rest when there are none or it is not
   * positive - with the full count, and no token to go on with.
   */
  lemma OffsetPage(c: Codec, keys: seq<string>, offset: int, limit: int)
    ensures var wanted := if offset < 0 then 0 else if offset < 0xFFFF_FFFF then offset else 0xFFFF_FFFF;
            var from := if wanted < |keys| then wanted else |keys|;
            var rest, most := |keys| - from, if limit > 0 then limit % 0x1_0000_0000 else 0;
            var size := if 0 < most < rest then most else rest;
            List(c, keys, None, offset, limit) == Some(Page(keys[from..from + size], |keys|, None))
  {
    var wanted := if offset < 0 then 0 else if offset < 0xFFFF_FFFF then offset else 0xFFFF_FFFF;
    var from := if wanted < |keys| then wanted else |keys|;
    assert keys[from..] == keys[from..|keys|];
  }

  /** Paging by cursor starts where the cursor says, whatever the offset; a malformed cursor is an error. */
  lemma CursorPage(c: Codec, keys: seq<string>, cursor: string, offset: int, limit: int)
    ensures c.decode(cursor).None? ==> List(c, keys, Some(cursor), offset, limit) == None
    ensures c.decode(cursor).Some? ==>
              var byCursor := List(c, keys, Some(cursor), offset, limit);
              var byOffset := List(c, keys, None, c.decode(cursor).value, limit);
              && byCursor.Some? && byOffset.Some?
              && byCursor.value.keys == byOffset.value.keys && byCursor.value.total == |keys|
  {
  }

  /** The token a page carries on with names a later offset: the walk ends. */
  lemma NextIsLater(c: Codec, keys: seq<string>, cursor: string, limit: int)
    requires Faithful(c) && |keys| <= U64_MAX && c.decode(cursor).Some?
    ensures var page := List(c, keys, Some(cursor), 0, limit).value;
            page.next.Some? ==>
              && c.decode(page.next.value).Some?
              && c.decode(cursor).value < c.decode(page.next.value).value < |keys|
              && c.decode(page.next.value).value == c.decode(cursor).value + |page.keys|
  {
    var start := c.decode(cursor).value;
    var page := List(c, keys, Some(cursor), 0, limit).value;
    if page.next.Some? {
      assert c.decode(c.encode(start + |page.keys|)) == Some(start + |page.keys|);
    }
  }

  /** Every page from `cursor` on, following each page's token. */
  function Walk(c: Codec, keys: seq<string>, limit: int, cursor: string): seq<string>
    requires Faithful(c) && |keys| <= U64_MAX && c.decode(cursor).Some?
    decreases |keys| - c.decode(cursor).value
  {
    NextIsLater(c, keys, cursor, limit);
    var page := List(c, keys, Some(cursor), 0, limit).value;
    page.keys + if page.next.Some? then Walk(c, keys, limit, page.next.value) else []
  }

  /** The first page start that the bridge's 32-bit offset cannot name. */
  function FirstPastU32(limit: nat, start: nat): nat
    requires limit > 0
    decreases U32_MAX + 1 - start
  {
    if start > U32_MAX then start else FirstPastU32(limit, start + limit)
  }

  ghost predicate DistinctKeys(keys: seq<string>)
  {
    forall i, j :: 0 <= i < j < |keys| ==> keys[i] != keys[j]
  }

  /** The same walk by offsets, the tokens left out. */
  function OffsetWalk(keys: seq<string>, limit: nat, start: nat): seq<string>
    decreases |keys| - start
  {
    var page := Slice(keys, limit, ClampOffset(start));
    page + if start + |page| < |keys| then OffsetWalk(keys, limit, start + |page|) else []
  }

  /** Tokens carry the offsets faithfully: the walk by tokens is the walk by offsets. */
  lemma {:induction false} WalkIsByOffsets(c: Codec, keys: seq<string>, limit: int, cursor: string)
    requires Faithful(c) && |keys| <= U64_MAX && c.decode(cursor).Some?
    ensures Walk(c, keys, limit, cursor) == OffsetWalk(keys, Limit32(limit), c.decode(cursor).value)
    decreases |keys| - c.decode(cursor).value
  {
    var start, l := c.decode(cursor).value, Limit32(limit);
    var page, next := WalkStep(c, keys, limit, cursor);
    var rest := [];
    if next.Some? {
      WalkIsByOffsets(c, keys, limit, next.value);
      rest := Walk(c, keys, limit, next.value);
    }
    OffsetStep(keys, l, start, page, rest);
  }

  /** One page of the walk by tokens ... */
  lemma WalkStep(c: Codec, keys: seq<string>, limit: int, cursor: string)
    returns (page: seq<string>, next: Option<string>)
    requires Faithful(c) && |keys| <= U64_MAX && c.decode(cursor).Some?
    ensures page == Slice(keys, Limit32(limit), ClampOffset(c.decode(cursor).value))
    ensures next.Some? <==> c.decode(cursor).value + |page| < |keys|
    ensures next.Some? ==> page != [] && c.decode(next.value) == Some(c.decode(cursor).value + |page|)
    ensures Walk(c, keys, limit, cursor) == page + (if next.Some? then Walk(c, keys, limit, next.value) else [])
  {
    NextIsLater(c, keys, cursor, limit);
    var answer := List(c, keys, Some(cursor), 0, limit).value;
    page, next := answer.keys, answer.next;
  }

  /** ... and by offsets. */
  lemma OffsetStep(keys: seq<string>, limit: nat, start: nat, page: seq<string>, rest: seq<string>)
    requires page == Slice(keys, limit, ClampOffset(start))
    requires rest == if start + |page| < |keys| then OffsetWalk(keys, limit, start + |page|) else []
    ensures OffsetWalk(keys, limit, start) == page + rest
  {
  }

  /** The key at the largest offset is not met again: all the walk needs of distinct keys. */
  ghost predicate OnceAtRangeEnd(keys: seq<string>)
  {
    forall k :: U32_MAX < k < |keys| ==> keys[k] != keys[U32_MAX]
  }

  /** A page that starts out of range is read from the largest offset instead. */
  lemma PastRangeGoesBack(keys: seq<string>, limit: nat, start: nat)
    requires OnceAtRangeEnd(keys) && U32_MAX < start < |keys|
    ensures OffsetWalk(keys, limit, start) != keys[start..]
  {
    var page := Slice(keys, limit, U32_MAX);
    assert page[0] == keys[U32_MAX];
    assert OffsetWalk(keys, limit, start)[0] == page[0];
    assert keys[start..][0] == keys[start];
  }

  predicate GoesOn(keys: seq<string>, limit: nat, start: nat)
  {
    limit > 0 && start + limit < |keys|
  }

  /** A page that starts in range is the keys from its start, and goes on where it ends. */
  lemma PageInRange(keys: seq<string>, limit: nat, start: nat, rest: seq<string>)
    requires start <= U32_MAX && (start < |keys| || start == 0)
    requires GoesOn(keys, limit, start) ==> rest == OffsetWalk(keys, limit, start + limit)
    ensures OffsetWalk(keys, limit, start) ==
            if GoesOn(keys, limit, start) then keys[start..start + limit] + rest else keys[start..]
  {
    var page := Slice(keys, limit, start);
    if GoesOn(keys, limit, start) {
      assert |page| == limit;
      OffsetStep(keys, limit, start, page, rest);
    } else {
      OffsetStep(keys, limit, start, page, []);
    }
  }

  /** A page in range keeps the walk right exactly when it goes on right. */
  lemma WalkOn(keys: seq<string>, limit: nat, start: nat, rest: seq<string>)
    requires start <= U32_MAX && (start < |keys| || start == 0)
    requires GoesOn(keys, limit, start) ==> rest == OffsetWalk(keys, limit, start + limit)
    ensures OffsetWalk(keys, limit, start) == keys[start..] <==>
              (GoesOn(keys, limit, start) ==> rest == keys[start + limit..])
  {
    PageInRange(keys, limit, start, rest);
    if GoesOn(keys, limit, start) {
      SuffixIff(keys, start, start + limit, rest);
    }
  }

  /** Every walk is the rest of the keys exactly when no page starts past the range. */
  lemma {:induction false} WalkFrom(keys: seq<string>, limit: nat, start: nat)
    requires OnceAtRangeEnd(keys) && (start < |keys| || start == 0)
    ensures OffsetWalk(keys, limit, start) == keys[start..] <==>
              (limit == 0 && start <= U32_MAX) || (limit > 0 && |keys| <= FirstPastU32(limit, start))
    decreases |keys| - start
  {
    if start > U32_MAX {
      PastRangeGoesBack(keys, limit, start);
    } else {
      var rest := if GoesOn(keys, limit, start) then OffsetWalk(keys, limit, start + limit) else [];
      WalkOn(keys, limit, start, rest);
      if limit > 0 { FirstPastIsPast(limit, start); }
      if GoesOn(keys, limit, start) { WalkFrom(keys, limit, start + limit); }
    }
  }

  lemma SuffixIff<T>(s: seq<T>, from: nat, at: nat, rest: seq<T>)
    requires from <= at <= |s|
    ensures s[from..at] + rest == s[from..] <==> rest == s[at..]
  {
  }

  lemma {:induction false} FirstPastIsPast(limit: nat, start: nat)
    requires limit > 0
    ensures FirstPastU32(limit, start) > U32_MAX && FirstPastU32(limit, start) >= start
    ensures start <= U32_MAX ==> FirstPastU32(limit, start) >= start + limit
    decreases U32_MAX + 1 - start
  {
    if start <= U32_MAX {
      FirstPastIsPast(limit, start + limit);
    }
  }

  /**
   * The cursor walk, from the empty cursor: the pages put together are the
   * sorted key list, each key once - for every limit, exactly when no page
   * would have to start past the largest offset the bridge can be given. In
   * particular whenever there are at most 2^32 keys.
   */
  lemma CursorWalkIff(keys: seq<string>, limit: int)
    requires |keys| <= U64_MAX && DistinctKeys(keys)
    ensures Faithful(TOKENS)
    ensures var l := Limit32(limit);
            && (Walk(TOKENS, keys, limit, "") == keys <==> l == 0 || |keys| <= FirstPastU32(l, 0))
            && (|keys| <= U32_MAX + 1 ==> Walk(TOKENS, keys, limit, "") == keys)
  {
    TokensAreFaithful();
    WalkIsByOffsets(TOKENS, keys, limit, "");
    WalkFrom(keys, Limit32(limit), 0);
    assert keys[0..] == keys;
    if Limit32(limit) > 0 { FirstPastIsPast(Limit32(limit), 0); }
  }

  // ─── The order of the listing ───────────────────────────────────────────

  /** JavaScript's `<` on strings. */
  predicate Less(a: string, b: string)
  {
    if b == "" then false
    else if a == "" then true
    else if a[0] == b[0] then Less(a[1..], b[1..])
    else a[0] < b[0]
  }

  /** The first `k` characters agree, and then `a` ends or has the smaller one. */
  predicate LessAt(a: string, b: string, k: nat)
  {
    && k <= |a| && k < |b| && a[..k] == b[..k]
    && (k == |a| || a[k] < b[k])
  }

  lemma {:induction false} LessIff(a: string, b: string)
    ensures Less(a, b) <==> exists k: nat :: LessAt(a, b, k)
  {
    if b == "" {
    } else if a == "" {
      assert LessAt(a, b, 0);
    } else if a[0] == b[0] {
      LessIff(a[1..], b[1..]);
      if Less(a[1..], b[1..]) {
        var k: nat :| LessAt(a[1..], b[1..], k);
        assert a[..k + 1] == [a[0]] + a[1..][..k] && b[..k + 1] == [b[0]] + b[1..][..k];
        assert LessAt(a, b, k + 1);
      }
      forall k: nat | LessAt(a, b, k) ensures Less(a[1..], b[1..]) {
        assert k > 0 && a[1..][..k - 1] == a[..k][1..] && b[1..][..k - 1] == b[..k][1..];
        assert LessAt(a[1..], b[1..], k - 1);
      }
    } else {
      if a[0] < b[0] { assert LessAt(a, b, 0); }
      forall k: nat | LessAt(a, b, k) ensures a[0] < b[0] {
        if k > 0 { assert a[..k][0] == b[..k][0]; }
      }
    }
  }

  lemma {:induction false} LessIsOneWay(a: string, b: string)
    ensures !(Less(a, b) && Less(b, a))
  {
    if a != "" && b != "" && a[0] == b[0] {
      LessIsOneWay(a[1..], b[1..]);
    }
  }

  ghost predicate Sorted(keys: seq<string>)
  {
    forall i, j :: 0 <= i < j < |keys| ==> Less(keys[i], keys[j])
  }

  /** Whatever order the directory iterator finds keys in, they sort to one list. */
  lemma {:induction false} SortedIsUnique(a: seq<string>, b: seq<string>)
    requires Sorted(a) && Sorted(b)
    requires forall k :: k in a <==> k in b
    ensures a == b && DistinctKeys(a)
  {
    forall i, j | 0 <= i < j < |a| ensures a[i] != a[j] { LessIsOneWay(a[i], a[j]); }
    forall i, j | 0 <= i < j < |b| ensures b[i] != b[j] { LessIsOneWay(b[i], b[j]); }
    if a != [] {
      assert a[0] in b && b[0] in a;
      LessIsOneWay(a[0], b[0]);
      assert a[0] == b[0];
      assert a == [a[0]] + a[1..] && b == [b[0]] + b[1..];
      forall k ensures k in a[1..] <==> k in b[1..] {
        assert k in a[1..] <==> k in a && k != a[0];
        assert k in b[1..] <==> k in b && k != b[0];
      }
      SortedIsUnique(a[1..], b[1..]);
    } else {
      EmptyIff(b);
    }
  }

  lemma EmptyIff<T>(s: seq<T>)
    ensures s == [] <==> forall k :: k !in s
  {
    if s != [] { assert s[0] in s; }
  }

  /** The keys of a folder that a listing with `prefix` is about. */
  ghost function Matching(t: ObjectTree.Tree, prefix: string): set<string>
  {
    set k | k in ObjectTree.ListedKeys(t) && StartsWith(k, prefix)
  }

  /**
   * Listing a folder page by page: whatever order its entries are met in, the
   * sorted keys are one list, and following the tokens reads exactly the
   * objects that match, each once and in order - for every limit under which
   * no page starts out of range.
   */
  lemma WalkListsTheFolder(t: ObjectTree.Tree, prefix: string, keys: seq<string>, again: seq<string>, limit: int)
    requires Sorted(keys) && Sorted(again) && |keys| <= U64_MAX
    requires forall k :: k in keys <==> k in Matching(t, prefix)
    requires forall k :: k in again <==> k in Matching(t, prefix)
    requires Limit32(limit) == 0 || |keys| <= FirstPastU32(Limit32(limit), 0)
    ensures again == keys && Faithful(TOKENS)
    ensures var pages := Walk(TOKENS, keys, limit, "");
            && DistinctKeys(pages) && Sorted(pages)
            && forall k :: k in pages <==> k in ObjectTree.ListedKeys(t) && StartsWith(k, prefix)
  {
    SortedIsUnique(again, keys);
    CursorWalkIff(keys, limit);
  }
}
