/** The byte format of `contracts/crosschain_settle/src/wire.rs`: 32-byte words,
    numbers big-endian in the low 16 bytes. */
module Wire {

  import opened Math

  const TWO32 := 0x1_0000_0000
  const TWO64 := 0x1_0000_0000_0000_0000
  const TWO128 := 0x1_0000_0000_0000_0000_0000_0000_0000_0000

  type Byte = b: int | 0 <= b < 256
  type Bytes = seq<Byte>
  type Word = w: Bytes | |w| == 32 witness seq(32, (i: nat) => 0)
  type U32 = v: int | 0 <= v < TWO32
  type U64 = v: int | 0 <= v < TWO64
  type U128 = v: int | 0 <= v < TWO128
  type I128 = v: int | -I128_MAX - 1 <= v <= I128_MAX

  const FILL: U32 := 0
  const PAID: U32 := 2
  const PAYOUT: U32 := 3
  const BID_AT: nat := 96
  const SIG_AT: nat := 416
  const ZEROS: Bytes := [0, 0, 0, 0, 0, 0, 0, 0, 0, 0, 0, 0, 0, 0, 0, 0]

  datatype Bid = Bid(
    maker: Word, makerIsContract: bool, stable: Word, maxAmount: I128, makerBpsPerDay: U32,
    delivery: U32, recipient: Word, recipientIsContract: bool, deadline: U64, salt: Word)

  // ---- numbers

  function Pow256(n: nat): (p: nat)
    ensures p > 0
  {
    if n == 0 then 1 else 256 * Pow256(n - 1)
  }

  /** `to_be_bytes` on `n` bytes. */
  function ToBE(v: nat, n: nat): (s: Bytes)
    ensures |s| == n
  {
    if n == 0 then [] else ToBE(v / 256, n - 1) + [v % 256]
  }

  /** `from_be_bytes`. */
  function FromBE(s: Bytes): (v: nat)
  {
    if s == [] then 0 else FromBE(s[..|s| - 1]) * 256 + s[|s| - 1]
  }

  lemma {:induction false} FromBEBound(s: Bytes)
    ensures FromBE(s) < Pow256(|s|)
  {
    if s != [] { FromBEBound(s[..|s| - 1]); }
  }

  lemma {:induction false} FromToBE(v: nat, n: nat)
    requires v < Pow256(n)
    ensures FromBE(ToBE(v, n)) == v
  {
    if n > 0 {
      var s := ToBE(v, n);
      assert s[..n - 1] == ToBE(v / 256, n - 1) && s[n - 1] == v % 256;
      assert v / 256 < Pow256(n - 1);
      FromToBE(v / 256, n - 1);
    }
  }

  lemma {:induction false} ToFromBE(s: Bytes)
    ensures ToBE(FromBE(s), |s|) == s
  {
    if s != [] {
      var h := s[..|s| - 1];
      ToFromBE(h);
      assert FromBE(s) / 256 == FromBE(h) && FromBE(s) % 256 == s[|s| - 1];
      assert s == h + [s[|s| - 1]];
    }
  }

  lemma Pow16()
    ensures Pow256(16) == TWO128
  {
    assert Pow256(4) == TWO32;
    assert Pow256(8) == TWO64 by { assert Pow256(6) == 0x1_0000_0000_0000; }
    assert Pow256(10) == 0x1_0000 * TWO64;
    assert Pow256(12) == TWO32 * TWO64;
    assert Pow256(14) == 0x1_0000 * TWO32 * TWO64;
  }

  /** Rust's `as` casts between the widths in a message. */
  function AsU128(v: I128): (u: U128) { if v < 0 then v + TWO128 else v }
  function AsI128(u: U128): (v: I128) { if u > I128_MAX then u - TWO128 else u }
  function Bit(b: bool): U128 { if b then 1 else 0 }

  // ---- words

  function Uint(v: U128): (w: Word) { ZEROS + ToBE(v, |ZEROS|) }

  /** A word read as a number, its upper half ignored. */
  function Tail(w: Word): (v: U128)
  {
    TailBound(w);
    FromBE(w[16..])
  }

  lemma TailBound(w: Word)
    ensures FromBE(w[16..]) < TWO128
  {
    FromBEBound(w[16..]);
    Pow16();
  }

  lemma TailUint(v: U128)
    ensures Tail(Uint(v)) == v
  {
    Pow16();
    assert Uint(v)[16..] == ToBE(v, |ZEROS|);
    FromToBE(v, |ZEROS|);
  }

  lemma UintTail(w: Word)
    ensures Uint(Tail(w)) == w <==> w[..16] == ZEROS
  {
    ToFromBE(w[16..]);
    assert w == w[..16] + w[16..];
    assert Uint(Tail(w))[..16] == ZEROS;
  }

  function Flatten(ws: seq<Word>): (s: Bytes)
    ensures |s| == 32 * |ws|
  {
    if ws == [] then [] else Flatten(ws[..|ws| - 1]) + ws[|ws| - 1]
  }

  /** The buffer loop of `words`. */
  method Words(ws: seq<Word>) returns (out: Bytes)
    ensures out == Flatten(ws)
  {
    out := [];
    for i := 0 to |ws|
      invariant out == Flatten(ws[..i])
    {
      assert ws[..i + 1][..i] == ws[..i];
      out := out + ws[i];
    }
    assert ws[..|ws|] == ws;
  }

  function WordAt(m: Bytes, at: nat): Word
    requires at + 32 <= |m|
  {
    m[at..at + 32]
  }

  lemma {:induction false} FlattenAt(ws: seq<Word>, rest: Bytes, i: nat)
    requires i < |ws|
    ensures 32 * i + 32 <= |Flatten(ws) + rest| && WordAt(Flatten(ws) + rest, 32 * i) == ws[i]
  {
    var init, last := ws[..|ws| - 1], ws[|ws| - 1];
    var m := Flatten(ws) + rest;
    assert m == Flatten(init) + (last + rest);
    if i < |ws| - 1 {
      FlattenAt(init, last + rest, i);
    } else {
      assert |Flatten(init)| == 32 * i;
      assert m[32 * i..32 * i + 32] == last;
    }
  }

  // ---- messages

  function BidWordList(b: Bid): (ws: seq<Word>)
    ensures |ws| == 10
  {
    [b.maker, Uint(Bit(b.makerIsContract)), b.stable, Uint(AsU128(b.maxAmount)), Uint(b.makerBpsPerDay),
     Uint(b.delivery), b.recipient, Uint(Bit(b.recipientIsContract)), Uint(b.deadline), b.salt]
  }

  function BidWords(b: Bid): (s: Bytes)
    ensures |s| == SIG_AT - BID_AT
  {
    Flatten(BidWordList(b))
  }

  function FillBytes(id: Word, amount: I128, bid: Bid, signature: Bytes): (m: Bytes)
    ensures |m| == SIG_AT + |signature|
  {
    Flatten([Uint(FILL), id, Uint(AsU128(amount))]) + BidWords(bid) + signature
  }

  /** `fill`: three words, the bid's, the signature. */
  method EncodeFill(id: Word, amount: I128, bid: Bid, signature: Bytes) returns (out: Bytes)
    ensures out == FillBytes(id, amount, bid, signature)
  {
    out := Words([Uint(FILL), id, Uint(AsU128(amount))]);
    var words := Words(BidWordList(bid));
    out := out + words;
    out := out + signature;
  }

  function AboutBytes(kind: U32, id: Word): Bytes { Flatten([Uint(kind), id]) }

  function PayoutBytes(to: Word, toIsContract: bool): Bytes { Flatten([Uint(PAYOUT), to, Uint(Bit(toIsContract))]) }

  function ParseBid(m: Bytes): (r: Option<Bid>)
    ensures r.Some? <==> |m| >= SIG_AT
  {
    if |m| < SIG_AT then None else
      Some(Bid(WordAt(m, BID_AT), Tail(WordAt(m, BID_AT + 32)) != 0, WordAt(m, BID_AT + 64),
               AsI128(Tail(WordAt(m, BID_AT + 96))), Tail(WordAt(m, BID_AT + 128)) % TWO32,
               Tail(WordAt(m, BID_AT + 160)) % TWO32, WordAt(m, BID_AT + 192), Tail(WordAt(m, BID_AT + 224)) != 0,
               Tail(WordAt(m, BID_AT + 256)) % TWO64, WordAt(m, BID_AT + 288)))
  }

  function Kind(m: Bytes): U32
    requires |m| >= 32
  {
    Tail(WordAt(m, 0)) % TWO32
  }

  /** Every word of a FILL reads back in place. */
  lemma FillWordAt(id: Word, amount: I128, bid: Bid, signature: Bytes, i: nat)
    requires i < 13
    ensures WordAt(FillBytes(id, amount, bid, signature), 32 * i)
            == ([Uint(FILL), id, Uint(AsU128(amount))] + BidWordList(bid))[i]
  {
    var head := [Uint(FILL), id, Uint(AsU128(amount))];
    var m := FillBytes(id, amount, bid, signature);
    if i < 3 {
      assert m == Flatten(head) + (BidWords(bid) + signature);
      FlattenAt(head, BidWords(bid) + signature, i);
    } else {
      var tail := BidWords(bid) + signature;
      FlattenAt(BidWordList(bid), signature, i - 3);
      assert m == Flatten(head) + tail;
      assert m[32 * i..32 * i + 32] == tail[32 * (i - 3)..32 * (i - 3) + 32];
    }
  }

  lemma FillTailAt(id: Word, amount: I128, bid: Bid, signature: Bytes, i: nat, v: U128)
    requires i < 13 && ([Uint(FILL), id, Uint(AsU128(amount))] + BidWordList(bid))[i] == Uint(v)
    ensures Tail(WordAt(FillBytes(id, amount, bid, signature), 32 * i)) == v
  {
    FillWordAt(id, amount, bid, signature, i);
    TailUint(v);
  }

  lemma SmallMod(v: nat, limit: nat)
    requires v < limit
    ensures v % limit == v
  {}

  /** A message whose words carry a bid's fields parses to that bid. */
  lemma ParseFields(m: Bytes, b: Bid)
    requires |m| >= SIG_AT
    requires WordAt(m, BID_AT) == b.maker && WordAt(m, BID_AT + 64) == b.stable
    requires WordAt(m, BID_AT + 192) == b.recipient && WordAt(m, BID_AT + 288) == b.salt
    requires Tail(WordAt(m, BID_AT + 32)) == Bit(b.makerIsContract)
    requires Tail(WordAt(m, BID_AT + 224)) == Bit(b.recipientIsContract)
    requires Tail(WordAt(m, BID_AT + 96)) == AsU128(b.maxAmount)
    requires Tail(WordAt(m, BID_AT + 128)) == b.makerBpsPerDay && Tail(WordAt(m, BID_AT + 160)) == b.delivery
    requires Tail(WordAt(m, BID_AT + 256)) == b.deadline
    ensures ParseBid(m) == Some(b)
  {
    SmallMod(b.makerBpsPerDay, TWO32);
    SmallMod(b.delivery, TWO32);
    SmallMod(b.deadline, TWO64);
  }

  /** Decoding undoes encoding, for every bid, id, amount and signature; and the
      slice the arrival hash covers is exactly the words the maker signed. */
  lemma FillRoundTrip(id: Word, amount: I128, bid: Bid, signature: Bytes)
    ensures var m := FillBytes(id, amount, bid, signature);
            && ParseBid(m) == Some(bid)
            && Kind(m) == FILL
            && WordAt(m, 32) == id
            && AsI128(Tail(WordAt(m, 64))) == amount
            && m[BID_AT..SIG_AT] == BidWords(bid)
            && m[SIG_AT..] == signature
  {
    var m := FillBytes(id, amount, bid, signature);
    assert ParseBid(m) == Some(bid) by {
      FillHoldsBid(id, amount, bid, signature);
      ParseHeld(m, bid);
    }
    FillHeader(id, amount, bid, signature);
  }

  lemma FillHeader(id: Word, amount: I128, bid: Bid, signature: Bytes)
    ensures var m := FillBytes(id, amount, bid, signature);
            Kind(m) == FILL && WordAt(m, 32) == id && AsI128(Tail(WordAt(m, 64))) == amount
  {
    var m := FillBytes(id, amount, bid, signature);
    assert WordAt(m, 32) == id by { FillWordAt(id, amount, bid, signature, 1); }
    assert Kind(m) == FILL by { FillTailAt(id, amount, bid, signature, 0, FILL); }
    assert AsI128(Tail(WordAt(m, 64))) == amount by { FillTailAt(id, amount, bid, signature, 2, AsU128(amount)); }
  }

  lemma TailOf(w: Word, v: U128)
    requires w == Uint(v)
    ensures Tail(w) == v
  {
    TailUint(v);
  }

  /** The predicate hides the word list from callers that only compare fields. */
  ghost predicate HoldsBid(m: Bytes, b: Bid)
  {
    |m| >= SIG_AT && forall i :: 0 <= i < 10 ==> WordAt(m, BID_AT + 32 * i) == BidWordList(b)[i]
  }

  lemma FillHoldsBid(id: Word, amount: I128, bid: Bid, signature: Bytes)
    ensures HoldsBid(FillBytes(id, amount, bid, signature), bid)
  {
    forall i | 0 <= i < 10
      ensures WordAt(FillBytes(id, amount, bid, signature), BID_AT + 32 * i) == BidWordList(bid)[i]
    {
      FillWordAt(id, amount, bid, signature, i + 3);
    }
  }

  lemma HeldWords(m: Bytes, b: Bid)
    requires HoldsBid(m, b)
    ensures WordAt(m, BID_AT) == b.maker && WordAt(m, BID_AT + 64) == b.stable
    ensures WordAt(m, BID_AT + 192) == b.recipient && WordAt(m, BID_AT + 288) == b.salt
  {
    assert WordAt(m, BID_AT + 32 * 0) == BidWordList(b)[0] && WordAt(m, BID_AT + 32 * 2) == BidWordList(b)[2];
    assert WordAt(m, BID_AT + 32 * 6) == BidWordList(b)[6] && WordAt(m, BID_AT + 32 * 9) == BidWordList(b)[9];
  }

  lemma HeldNumber(m: Bytes, b: Bid, k: nat, v: U128)
    requires HoldsBid(m, b) && k < 10 && BidWordList(b)[k] == Uint(v)
    ensures Tail(WordAt(m, BID_AT + 32 * k)) == v
  {
    assert WordAt(m, BID_AT + 32 * k) == BidWordList(b)[k];
    TailOf(WordAt(m, BID_AT + 32 * k), v);
  }

  lemma HeldBits(m: Bytes, b: Bid)
    requires HoldsBid(m, b)
    ensures Tail(WordAt(m, BID_AT + 32)) == Bit(b.makerIsContract)
    ensures Tail(WordAt(m, BID_AT + 224)) == Bit(b.recipientIsContract)
    ensures Tail(WordAt(m, BID_AT + 96)) == AsU128(b.maxAmount)
  {
    HeldNumber(m, b, 1, Bit(b.makerIsContract));
    HeldNumber(m, b, 7, Bit(b.recipientIsContract));
    HeldNumber(m, b, 3, AsU128(b.maxAmount));
  }

  lemma HeldNumbers(m: Bytes, b: Bid)
    requires HoldsBid(m, b)
    ensures Tail(WordAt(m, BID_AT + 128)) == b.makerBpsPerDay && Tail(WordAt(m, BID_AT + 160)) == b.delivery
    ensures Tail(WordAt(m, BID_AT + 256)) == b.deadline
  {
    HeldNumber(m, b, 4, b.makerBpsPerDay);
    HeldNumber(m, b, 5, b.delivery);
    HeldNumber(m, b, 8, b.deadline);
  }

  lemma ParseHeld(m: Bytes, b: Bid)
    requires HoldsBid(m, b)
    ensures ParseBid(m) == Some(b)
  {
    HeldWords(m, b);
    HeldBits(m, b);
    HeldNumbers(m, b);
    ParseFields(m, b);
  }

  lemma AboutRoundTrip(kind: U32, id: Word)
    ensures Kind(AboutBytes(kind, id)) == kind && WordAt(AboutBytes(kind, id), 32) == id
  {
    var ws := [Uint(kind), id];
    assert AboutBytes(kind, id) == Flatten(ws) + [];
    FlattenAt(ws, [], 0);
    FlattenAt(ws, [], 1);
    TailUint(kind);
  }

  lemma PayoutRoundTrip(to: Word, toIsContract: bool)
    ensures var m := PayoutBytes(to, toIsContract);
            Kind(m) == PAYOUT && WordAt(m, 32) == to && (Tail(WordAt(m, 64)) != 0 <==> toIsContract)
  {
    var ws := [Uint(PAYOUT), to, Uint(Bit(toIsContract))];
    assert PayoutBytes(to, toIsContract) == Flatten(ws) + [];
    FlattenAt(ws, [], 0);
    FlattenAt(ws, [], 1);
    FlattenAt(ws, [], 2);
    TailUint(PAYOUT);
    TailUint(Bit(toIsContract));
  }

  /** Distinct bids have distinct words, so a signed hash names one bid. */
  lemma BidWordsInjective(a: Bid, b: Bid)
    requires BidWords(a) == BidWords(b)
    ensures a == b
  {
    var id: Word := Uint(0);
    assert FillBytes(id, 0, a, []) == FillBytes(id, 0, b, []);
    FillRoundTrip(id, 0, a, []);
    FillRoundTrip(id, 0, b, []);
  }

  predicate Fits(w: Word, limit: nat) { w[..16] == ZEROS && Tail(w) < limit }

  /** Words whose numbers carry no bits their type drops. */
  predicate Canonical(ws: seq<Word>)
    requires |ws| == 10
  {
    && Fits(ws[1], 2) && Fits(ws[3], TWO128) && Fits(ws[4], TWO32)
    && Fits(ws[5], TWO32) && Fits(ws[7], 2) && Fits(ws[8], TWO64)
  }

  /** The ten words of a message where a bid is read. */
  function BidSlots(m: Bytes): (ws: seq<Word>)
    requires |m| >= SIG_AT
    ensures |ws| == 10
  {
    seq(10, (i: nat) requires i < 10 => WordAt(m, BID_AT + 32 * i))
  }

  lemma {:induction false} FlattenWords(ws: seq<Word>, vs: seq<Word>)
    requires |ws| == |vs|
    ensures Flatten(ws) == Flatten(vs) ==> ws == vs
  {
    if Flatten(ws) == Flatten(vs) {
      forall i | 0 <= i < |ws|
        ensures ws[i] == vs[i]
      {
        FlattenAt(ws, [], i);
        FlattenAt(vs, [], i);
        assert Flatten(ws) + [] == Flatten(vs) + [];
      }
    }
  }

  lemma {:induction false} SlicePrefix(m: Bytes, ws: seq<Word>, n: nat)
    requires |m| >= SIG_AT && |ws| == 10 && n <= 10
    requires forall i :: 0 <= i < 10 ==> ws[i] == WordAt(m, BID_AT + 32 * i)
    ensures m[BID_AT..BID_AT + 32 * n] == Flatten(ws[..n])
  {
    if n > 0 {
      SlicePrefix(m, ws, n - 1);
      assert ws[..n][..n - 1] == ws[..n - 1];
      assert m[BID_AT..BID_AT + 32 * n] == m[BID_AT..BID_AT + 32 * (n - 1)] + ws[n - 1];
    }
  }

  lemma ReencodeBit(w: Word)
    ensures Uint(Bit(Tail(w) != 0)) == w <==> Fits(w, 2)
  {
    UintTail(w);
    TailUint(Bit(Tail(w) != 0));
  }

  lemma ReencodeNumber(w: Word, limit: nat, v: U128)
    requires 0 < limit <= TWO128 && v == Tail(w) % limit
    ensures Uint(v) == w <==> Fits(w, limit)
  {
    UintTail(w);
    TailUint(v);
    if Tail(w) < limit { SmallMod(Tail(w), limit); }
  }

  ghost predicate ReadFrom(b: Bid, ws: seq<Word>)
  {
    && |ws| == 10
    && b == Bid(ws[0], Tail(ws[1]) != 0, ws[2], AsI128(Tail(ws[3])), Tail(ws[4]) % TWO32,
                Tail(ws[5]) % TWO32, ws[6], Tail(ws[7]) != 0, Tail(ws[8]) % TWO64, ws[9])
  }

  lemma ReencodeMaker(ws: seq<Word>, b: Bid)
    requires ReadFrom(b, ws)
    ensures BidWordList(b)[1] == ws[1] <==> Fits(ws[1], 2)
  {
    assert BidWordList(b)[1] == Uint(Bit(Tail(ws[1]) != 0));
    ReencodeBit(ws[1]);
  }

  lemma ReencodeRecipient(ws: seq<Word>, b: Bid)
    requires ReadFrom(b, ws)
    ensures BidWordList(b)[7] == ws[7] <==> Fits(ws[7], 2)
  {
    assert BidWordList(b)[7] == Uint(Bit(Tail(ws[7]) != 0));
    ReencodeBit(ws[7]);
  }

  lemma ReencodeAmount(ws: seq<Word>, b: Bid)
    requires ReadFrom(b, ws)
    ensures BidWordList(b)[3] == ws[3] <==> Fits(ws[3], TWO128)
  {
    SmallMod(Tail(ws[3]), TWO128);
    ReencodeNumber(ws[3], TWO128, AsU128(b.maxAmount));
  }

  lemma ReencodeNumbers(ws: seq<Word>, b: Bid)
    requires ReadFrom(b, ws)
    ensures BidWordList(b)[4] == ws[4] <==> Fits(ws[4], TWO32)
    ensures BidWordList(b)[5] == ws[5] <==> Fits(ws[5], TWO32)
    ensures BidWordList(b)[8] == ws[8] <==> Fits(ws[8], TWO64)
  {
    ReencodeNumber(ws[4], TWO32, b.makerBpsPerDay);
    ReencodeNumber(ws[5], TWO32, b.delivery);
    ReencodeNumber(ws[8], TWO64, b.deadline);
  }

  lemma ReencodeWords(ws: seq<Word>, b: Bid)
    requires ReadFrom(b, ws)
    ensures BidWordList(b) == ws <==> Canonical(ws)
  {
    ReencodeMaker(ws, b);
    ReencodeRecipient(ws, b);
    ReencodeAmount(ws, b);
    ReencodeNumbers(ws, b);
    var vs := BidWordList(b);
    assert vs == ws <==> vs[1] == ws[1] && vs[3] == ws[3] && vs[4] == ws[4] && vs[5] == ws[5] && vs[7] == ws[7] && vs[8] == ws[8];
  }

  lemma ParseReads(m: Bytes)
    requires |m| >= SIG_AT
    ensures ReadFrom(ParseBid(m).value, BidSlots(m))
  {}

  /** Encoding undoes decoding exactly on canonical messages. A peer's FILL may
      carry other words, which is why arrival hashes the slice and never the
      re-encoded bid. */
  lemma ReencodeIffCanonical(m: Bytes)
    requires |m| >= SIG_AT
    ensures BidWords(ParseBid(m).value) == m[BID_AT..SIG_AT] <==> Canonical(BidSlots(m))
  {
    var b, ws := ParseBid(m).value, BidSlots(m);
    assert m[BID_AT..SIG_AT] == Flatten(ws) by {
      SlicePrefix(m, ws, 10);
      assert ws[..10] == ws;
    }
    FlattenWords(BidWordList(b), ws);
    ParseReads(m);
    ReencodeWords(ws, b);
  }
}
