/** Events and their de-duplication key (pkg/events/events.go). */
module Events {
  import opened Texts

  /** A pointer to an event's labels: `ref` is the address, which Go's `==` on events compares. */
  datatype LabelsPtr = LabelsPtr(ref: nat, labels: map<Text, Text>)

  datatype Event = Event(name: Text, activeTime: int, data: Option<LabelsPtr>)

  /** Go's zero value, which a receive from a closed channel yields. */
  const ZERO_EVENT := Event([], 0, None)

  /** The labels of an event; a nil pointer reads as no labels. */
  function Labels(e: Event): map<Text, Text> {
    if e.data.None? then map[] else e.data.value.labels
  }

  /** The bytes that are hashed: the name, then the label values in label order. */
  ghost function KeyText(e: Event): Text {
    e.name + Values(Labels(e), InOrder(Labels(e).Keys))
  }

  function Values(labels: map<Text, Text>, keys: seq<Text>): Text
    requires forall k :: k in keys ==> k in labels
  {
    if keys == [] then [] else labels[keys[0]] + Values(labels, keys[1..])
  }

  lemma {:induction false} ValuesSnoc(labels: map<Text, Text>, keys: seq<Text>, k: Text)
    requires k in labels && forall x :: x in keys ==> x in labels
    ensures Values(labels, keys + [k]) == Values(labels, keys) + labels[k]
  {
    if keys == [] {
      assert keys + [k] == [k];
      assert Values(labels, [k]) == labels[k] + Values(labels, []);
    } else {
      assert (keys + [k])[1..] == keys[1..] + [k];
      ValuesSnoc(labels, keys[1..], k);
    }
  }

  // ---------- 32-bit FNV-1a ----------

  const WORD := 0x1_0000_0000
  const OFFSET_BASIS := 2166136261
  const PRIME := 16777619
  /** The inverse of PRIME modulo 2^32. */
  const PRIME_INVERSE := 0x359C449B

  type Word = h: int | 0 <= h < WORD

  /** Bitwise exclusive or. */
  function Xor(a: nat, b: nat): (c: nat)
    decreases a + b
  {
    if a == 0 && b == 0 then 0 else 2 * Xor(a / 2, b / 2) + (a % 2 + b % 2) % 2
  }

  lemma {:induction false} XorUndoes(a: nat, b: nat)
    ensures Xor(Xor(a, b), b) == a
    decreases a + b
  {
    if a != 0 || b != 0 {
      var c := Xor(a, b);
      XorDigits(a, b);
      XorDigits(c, b);
      XorUndoes(a / 2, b / 2);
      BitUndoes(a % 2, b % 2);
      SameDigits(Xor(c, b), a);
    }
  }

  lemma BitUndoes(x: nat, y: nat)
    requires x < 2 && y < 2
    ensures ((x + y) % 2 + y) % 2 == x
  {
  }

  lemma SameDigits(x: nat, y: nat)
    requires x / 2 == y / 2 && x % 2 == y % 2
    ensures x == y
  {
  }

  lemma XorDigits(a: nat, b: nat)
    ensures Xor(a, b) / 2 == Xor(a / 2, b / 2)
    ensures Xor(a, b) % 2 == (a % 2 + b % 2) % 2
  {
  }

  lemma {:induction false} XorCommutes(a: nat, b: nat)
    ensures Xor(a, b) == Xor(b, a)
    decreases a + b
  {
    if a != 0 || b != 0 { XorCommutes(a / 2, b / 2); }
  }

  /** Exclusive or does not leave the range of its operands. */
  lemma {:induction false} XorBounded(a: nat, b: nat, bound: nat, bits: nat)
    requires bound == Power2(bits) && a < bound && b < bound
    ensures Xor(a, b) < bound
    decreases bits
  {
    if bits != 0 { XorBounded(a / 2, b / 2, bound / 2, bits - 1); }
  }

  function Power2(n: nat): (p: nat)
    ensures p > 0
  {
    if n == 0 then 1 else 2 * Power2(n - 1)
  }

  lemma WordIsPower2()
    ensures Power2(32) == WORD
  {
    assert Power2(8) == 256;
    assert Power2(16) == 65536;
    assert Power2(24) == 16777216;
  }

  /** One step: exclusive-or with the byte, then multiply by the FNV prime modulo 2^32. */
  function FnvStep(h: Word, b: byte): Word {
    (Xor(h, b) * PRIME) % WORD
  }

  function Fnv(h: Word, t: Text): Word
    decreases |t|
  {
    if t == [] then h else Fnv(FnvStep(h, t[0]), t[1..])
  }

  lemma PrimeInvertible(x: Word)
    ensures ((x * PRIME) % WORD) * PRIME_INVERSE % WORD == x
  {
    var q, r := (x * PRIME) / WORD, (x * PRIME) % WORD;
    assert PRIME * PRIME_INVERSE == 1 + (PRIME * PRIME_INVERSE / WORD) * WORD;
    var k := x * (PRIME * PRIME_INVERSE / WORD) - q * PRIME_INVERSE;
    assert r * PRIME_INVERSE == x + k * WORD;
  }

  lemma FnvStepUndone(h: Word, b: byte)
    ensures Xor(FnvStep(h, b) * PRIME_INVERSE % WORD, b) == h
  {
    WordIsPower2();
    XorBounded(h, b, WORD, 32);
    PrimeInvertible(Xor(h, b));
    XorUndoes(h, b);
  }

  /** One hashing step loses nothing: neither of the state nor of the byte. */
  lemma FnvStepInjective(h: Word, k: Word, a: byte, b: byte)
    ensures FnvStep(h, a) == FnvStep(k, a) ==> h == k
    ensures FnvStep(h, a) == FnvStep(h, b) ==> a == b
  {
    FnvStepUndone(h, a);
    FnvStepUndone(k, a);
    if FnvStep(h, a) == FnvStep(h, b) {
      WordIsPower2();
      XorBounded(h, a, WORD, 32);
      XorBounded(h, b, WORD, 32);
      PrimeInvertible(Xor(h, a));
      PrimeInvertible(Xor(h, b));
      XorCommutes(h, a);
      XorCommutes(h, b);
      XorUndoes(a, h);
      XorUndoes(b, h);
    }
  }

  lemma {:induction false} FnvInjectiveInState(h: Word, k: Word, t: Text)
    requires h != k
    ensures Fnv(h, t) != Fnv(k, t)
    decreases |t|
  {
    if t != [] {
      FnvStepInjective(h, k, t[0], t[0]);
      FnvInjectiveInState(FnvStep(h, t[0]), FnvStep(k, t[0]), t[1..]);
    }
  }

  predicate DifferInOneByte(s: Text, t: Text) {
    |s| == |t| && exists p | 0 <= p < |s| :: s[p] != t[p] && s[..p] == t[..p] && s[p + 1..] == t[p + 1..]
  }

  lemma {:induction false} FnvSeparates(h: Word, s: Text, t: Text, p: nat)
    requires |s| == |t| && p < |s|
    requires s[p] != t[p] && s[..p] == t[..p] && s[p + 1..] == t[p + 1..]
    ensures Fnv(h, s) != Fnv(h, t)
    decreases p
  {
    if p == 0 {
      FnvStepInjective(h, h, s[0], t[0]);
      FnvInjectiveInState(FnvStep(h, s[0]), FnvStep(h, t[0]), s[1..]);
    } else {
      assert s[0] == s[..p][0] == t[..p][0] == t[0];
      assert s[1..][..p - 1] == s[..p][1..] == t[..p][1..] == t[1..][..p - 1];
      assert s[1..][p..] == s[p + 1..] && t[1..][p..] == t[p + 1..];
      FnvSeparates(FnvStep(h, s[0]), s[1..], t[1..], p - 1);
    }
  }

  // ---------- hexadecimal digest ----------

  function HexDigit(d: byte): byte
    requires d < 16
  {
    if d < 10 then 48 + d else 87 + d
  }

  predicate IsLowerHex(c: byte) {
    48 <= c <= 57 || 97 <= c <= 102
  }

  /** The four bytes of the sum, most significant first. */
  function SumBytes(h: Word): seq<byte> {
    [h / 256 / 256 / 256, h / 256 / 256 % 256, h / 256 % 256, h % 256]
  }

  function HexEncode(bytes: seq<byte>): Text {
    if bytes == [] then [] else [HexDigit(bytes[0] / 16), HexDigit(bytes[0] % 16)] + HexEncode(bytes[1..])
  }

  lemma HexDigitInjective(a: byte, b: byte)
    requires a < 16 && b < 16
    ensures IsLowerHex(HexDigit(a))
    ensures HexDigit(a) == HexDigit(b) ==> a == b
  {
  }

  lemma BytesDetermineSum(g: Word, h: Word)
    requires SumBytes(g) == SumBytes(h)
    ensures g == h
  {
  }

  lemma {:induction false} HexEncodeShape(x: seq<byte>)
    ensures |HexEncode(x)| == 2 * |x|
    ensures forall i :: 0 <= i < |HexEncode(x)| ==> IsLowerHex(HexEncode(x)[i])
  {
    if x != [] {
      HexDigitInjective(x[0] / 16, x[0] % 16);
      HexDigitInjective(x[0] % 16, x[0] % 16);
      HexEncodeShape(x[1..]);
    }
  }

  lemma {:induction false} HexEncodeInjective(x: seq<byte>, y: seq<byte>)
    requires |x| == |y| && HexEncode(x) == HexEncode(y)
    ensures x == y
  {
    if x != [] {
      var hx, hy := HexEncode(x), HexEncode(y);
      assert hx[0] == hy[0] && hx[1] == hy[1];
      HexDigitInjective(x[0] / 16, y[0] / 16);
      HexDigitInjective(x[0] % 16, y[0] % 16);
      assert HexEncode(x[1..]) == hx[2..] == hy[2..] == HexEncode(y[1..]);
      HexEncodeInjective(x[1..], y[1..]);
      assert x == [x[0]] + x[1..] == [y[0]] + y[1..] == y;
    }
  }

  // ---------- Event.Key ----------

  ghost function EventKey(e: Event): Text {
    if e.name == [] && Labels(e) == map[] then [] else HexEncode(SumBytes(Fnv(OFFSET_BASIS, KeyText(e))))
  }

  /** Event.Key as the source computes it. */
  method Key(e: Event) returns (k: Text)
    ensures k == EventKey(e)
  {
    if Labels(e) == map[] && |e.name| == 0 {
      return [];
    }
    var sb := BuildKeyText(e);
    var h := Sum(sb);
    k := HexEncode(SumBytes(h));
  }

  method Sum(sb: Text) returns (h: Word)
    ensures h == Fnv(OFFSET_BASIS, sb)
  {
    h := OFFSET_BASIS;
    for n := 0 to |sb|
      invariant Fnv(h, sb[n..]) == Fnv(OFFSET_BASIS, sb)
    {
      assert sb[n..][1..] == sb[n + 1..];
      h := FnvStep(h, sb[n]);
    }
  }

  /** The string builder: the labels are ranged over in an arbitrary order, then sorted. */
  method BuildKeyText(e: Event) returns (sb: Text)
    ensures sb == KeyText(e)
  {
    sb := e.name;
    if e.data.Some? {
      var labels := e.data.value.labels;
      var keys := CollectKeys(labels);
      var sorted := SortStrings(keys);
      SortedPermutation(keys, sorted);
      SortedEnumerationUnique(sorted, InOrder(labels.Keys));
      var values := ConcatValues(labels, sorted);
      sb := sb + values;
    } else {
      assert Labels(e).Keys == {};
      assert sb + [] == sb;
    }
  }

  method ConcatValues(labels: map<Text, Text>, keys: seq<Text>) returns (sb: Text)
    requires forall k :: k in keys ==> k in labels
    ensures sb == Values(labels, keys)
  {
    sb := [];
    for n := 0 to |keys|
      invariant sb == Values(labels, keys[..n])
    {
      ValuesSnoc(labels, keys[..n], keys[n]);
      assert keys[..n + 1] == keys[..n] + [keys[n]];
      sb := sb + labels[keys[n]];
    }
    assert keys[..|keys|] == keys;
  }

  method CollectKeys(labels: map<Text, Text>) returns (keys: seq<Text>)
    ensures Distinct(keys)
    ensures forall x :: x in keys <==> x in labels
  {
    keys := [];
    var rest := labels.Keys;
    while rest != {}
      invariant rest <= labels.Keys
      invariant Distinct(keys)
      invariant forall x :: x in keys <==> x in labels.Keys - rest
      decreases |rest|
    {
      var k :| k in rest;
      assert k !in keys;
      keys := keys + [k];
      rest := rest - {k};
    }
  }

  lemma SortedPermutation(a: seq<Text>, b: seq<Text>)
    requires Distinct(a) && multiset(a) == multiset(b)
    ensures Distinct(b)
    ensures forall x :: x in a <==> x in b
  {
    forall x ensures x in a <==> x in b {
      assert x in a <==> x in multiset(a);
      assert x in b <==> x in multiset(b);
    }
    DistinctCounts(a);
    forall i, j | 0 <= i < j < |b| ensures b[i] != b[j] {
      if b[i] == b[j] { CountTwice(b, i, j); }
    }
  }

  lemma {:induction false} DistinctCounts(a: seq<Text>)
    requires Distinct(a)
    ensures forall x :: multiset(a)[x] <= 1
  {
    if a != [] {
      var n := |a| - 1;
      DistinctCounts(a[..n]);
      assert a == a[..n] + [a[n]];
      forall x ensures multiset(a)[x] <= 1 {
        if x == a[n] { assert x !in multiset(a[..n]); }
      }
    }
  }

  lemma CountTwice(b: seq<Text>, i: nat, j: nat)
    requires i < j < |b| && b[i] == b[j]
    ensures multiset(b)[b[i]] >= 2
  {
    assert b == b[..j] + [b[j]] + b[j + 1..];
    assert b[i] in b[..j];
  }

  // ---------- what the key promises ----------

  /** The key is a function of the name and of the label map as a map: neither the time of the
      alert, nor the address of the labels, nor a nil in place of an empty map is seen. */
  lemma KeyDependsOnNameAndLabels(d: Event, e: Event)
    requires d.name == e.name && Labels(d) == Labels(e)
    ensures EventKey(d) == EventKey(e)
  {
  }

  /** The zero value has no name, no time and no labels, and therefore no key. */
  lemma ZeroEventIsEmpty()
    ensures ZERO_EVENT.name == [] && ZERO_EVENT.activeTime == 0 && ZERO_EVENT.data.None? && EventKey(ZERO_EVENT) == []
  {
  }

  lemma KeyShape(e: Event)
    ensures EventKey(e) == [] <==> e.name == [] && Labels(e) == map[]
    ensures EventKey(e) != [] ==>
              |EventKey(e)| == 8 && forall i :: 0 <= i < 8 ==> IsLowerHex(EventKey(e)[i])
  {
    HexEncodeShape(SumBytes(Fnv(OFFSET_BASIS, KeyText(e))));
  }

  /** Events whose key texts differ in exactly one byte always have different keys. */
  lemma KeySeparates(d: Event, e: Event)
    requires DifferInOneByte(KeyText(d), KeyText(e))
    ensures EventKey(d) != EventKey(e)
  {
    var s, t := KeyText(d), KeyText(e);
    var p :| 0 <= p < |s| && s[p] != t[p] && s[..p] == t[..p] && s[p + 1..] == t[p + 1..];
    FnvSeparates(OFFSET_BASIS, s, t, p);
    var g, h := Fnv(OFFSET_BASIS, s), Fnv(OFFSET_BASIS, t);
    EmptyKeyText(d);
    EmptyKeyText(e);
    if HexEncode(SumBytes(g)) == HexEncode(SumBytes(h)) { DigestDetermines(g, h); }
  }

  // ---------- the number that the digits denote ----------

  /** Bit `i` of a number. */
  function Bit(x: nat, i: nat): nat {
    if i == 0 then x % 2 else Bit(x / 2, i - 1)
  }

  /** Exclusive or is bitwise. */
  lemma {:induction false} XorBits(a: nat, b: nat, i: nat)
    ensures Bit(Xor(a, b), i) == if Bit(a, i) == Bit(b, i) then 0 else 1
    decreases i
  {
    XorDigits(a, b);
    BitIsBit(a, i);
    BitIsBit(b, i);
    if i > 0 { XorBits(a / 2, b / 2, i - 1); }
  }

  lemma BitIsBit(x: nat, i: nat)
    ensures Bit(x, i) < 2
  {
  }

  /** A step flips in the hash the bits that are set in the byte, and multiplies by 0x01000193 modulo
      2^32. */
  lemma StepIsFnv1a(h: Word, b: byte) returns (x: Word)
    ensures forall i: nat :: Bit(x, i) == if Bit(h, i) == Bit(b, i) then 0 else 1
    ensures FnvStep(h, b) == x * 0x0100_0193 % 0x1_0000_0000
  {
    x := XorInWord(h, b);
    forall i: nat ensures Bit(x, i) == if Bit(h, i) == Bit(b, i) then 0 else 1 { XorBits(h, b, i); }
  }

  lemma XorInWord(h: Word, b: byte) returns (x: Word)
    ensures x == Xor(h, b)
  {
    WordIsPower2();
    XorBounded(h, b, WORD, 32);
    x := Xor(h, b);
  }

  lemma HexDigitSpelled(d: byte)
    requires d < 16
    ensures HexDigit(d) == "0123456789abcdef"[d] as int
  {
  }

  function DigitValue(c: byte): nat {
    if c <= 57 then (if c >= 48 then c - 48 else 0) else if c >= 87 then c - 87 else 0
  }

  /** The number that a string of hexadecimal digits denotes, most significant first. */
  function Number(digits: Text): nat {
    if digits == [] then 0 else 16 * Number(digits[..|digits| - 1]) + DigitValue(digits[|digits| - 1])
  }

  lemma NumberOfPair(digits: Text, d: byte)
    ensures Number(digits + [HexDigit(d / 16), HexDigit(d % 16)]) == 256 * Number(digits) + d
  {
    var one := digits + [HexDigit(d / 16)];
    assert digits + [HexDigit(d / 16), HexDigit(d % 16)] == one + [HexDigit(d % 16)];
    assert (one + [HexDigit(d % 16)])[..|one|] == one && one[..|digits|] == digits;
  }

  lemma {:induction false} HexEncodeSnoc(x: seq<byte>, d: byte)
    ensures HexEncode(x + [d]) == HexEncode(x) + [HexDigit(d / 16), HexDigit(d % 16)]
  {
    if x == [] {
      assert x + [d] == [d] && [d][1..] == [];
    } else {
      assert (x + [d])[1..] == x[1..] + [d];
      HexEncodeSnoc(x[1..], d);
    }
  }

  /** A byte more is two digits more. */
  lemma NumberOfByte(x: seq<byte>, d: byte)
    ensures Number(HexEncode(x + [d])) == 256 * Number(HexEncode(x)) + d
  {
    HexEncodeSnoc(x, d);
    NumberOfPair(HexEncode(x), d);
  }

  /** The key of an event denotes, in hexadecimal, the hash of its text. */
  lemma KeyDenotesHash(e: Event, basis: Word)
    requires EventKey(e) != [] && basis == 0x811C_9DC5
    ensures Number(EventKey(e)) == Fnv(basis, KeyText(e))
  {
    var b := SumBytes(Fnv(OFFSET_BASIS, KeyText(e)));
    assert b == [] + [b[0]] + [b[1]] + [b[2]] + [b[3]];
    NumberOfByte([], b[0]);
    NumberOfByte([] + [b[0]], b[1]);
    NumberOfByte([] + [b[0]] + [b[1]], b[2]);
    NumberOfByte([] + [b[0]] + [b[1]] + [b[2]], b[3]);
  }

  // ---------- renaming labels ----------

  /** For equal names the hashed texts agree exactly when the values, taken in label order, do. */
  lemma SameTextIff(d: Event, e: Event)
    requires d.name == e.name
    ensures KeyText(d) == KeyText(e)
            <==> Values(Labels(d), InOrder(Labels(d).Keys)) == Values(Labels(e), InOrder(Labels(e).Keys))
  {
    var s, t := KeyText(d), KeyText(e);
    assert s[|d.name|..] == Values(Labels(d), InOrder(Labels(d).Keys));
    assert t[|e.name|..] == Values(Labels(e), InOrder(Labels(e).Keys));
  }

  ghost predicate Less(a: Text, b: Text) {
    Leq(a, b) && a != b
  }

  /** `f` renames the labels of `a` into those of `b`, keeping their values and their order. */
  ghost predicate Renames(f: Text -> Text, a: map<Text, Text>, b: map<Text, Text>) {
    && (forall k :: k in a ==> f(k) in b && b[f(k)] == a[k])
    && (forall l :: l in b ==> exists k :: k in a && f(k) == l)
    && (forall j, k :: j in a && k in a && Less(j, k) ==> Less(f(j), f(k)))
  }

  function Renamed(f: Text -> Text, keys: seq<Text>): (r: seq<Text>)
    ensures |r| == |keys| && forall i :: 0 <= i < |r| ==> r[i] == f(keys[i])
  {
    seq(|keys|, i requires 0 <= i < |keys| => f(keys[i]))
  }

  lemma {:induction false} RenamedValues(f: Text -> Text, a: map<Text, Text>, b: map<Text, Text>, keys: seq<Text>)
    requires forall k :: k in keys ==> k in a && f(k) in b && b[f(k)] == a[k]
    ensures forall l :: l in Renamed(f, keys) ==> l in b
    ensures Values(b, Renamed(f, keys)) == Values(a, keys)
  {
    if keys != [] {
      RenamedValues(f, a, b, keys[1..]);
      assert Renamed(f, keys)[1..] == Renamed(f, keys[1..]);
    }
  }

  /** The renamed labels, in the old order, are the new labels in order. */
  lemma RenamedInOrder(f: Text -> Text, a: map<Text, Text>, b: map<Text, Text>)
    requires Renames(f, a, b)
    ensures Renamed(f, InOrder(a.Keys)) == InOrder(b.Keys)
  {
    var keys := InOrder(a.Keys);
    var r := Renamed(f, keys);
    forall i, j | 0 <= i < j < |r| ensures Less(r[i], r[j]) { assert Less(keys[i], keys[j]); }
    RenamedMembers(f, a, b, keys);
    SortedEnumerationUnique(r, InOrder(b.Keys));
  }

  lemma RenamedMembers(f: Text -> Text, a: map<Text, Text>, b: map<Text, Text>, keys: seq<Text>)
    requires Renames(f, a, b) && forall k :: k in keys <==> k in a
    ensures forall l :: l in Renamed(f, keys) <==> l in b
  {
  }

  /** The names of labels are not hashed, only their order is seen: renaming labels never changes the
      key as long as it keeps their order. */
  lemma OrderedRenamingKeepsKey(d: Event, e: Event, f: Text -> Text)
    requires d.name == e.name && Renames(f, Labels(d), Labels(e))
    ensures EventKey(d) == EventKey(e)
  {
    var keys := InOrder(Labels(d).Keys);
    RenamedValues(f, Labels(d), Labels(e), keys);
    RenamedInOrder(f, Labels(d), Labels(e));
    SameTextIff(d, e);
    assert Labels(d) == map[] <==> Labels(e) == map[] by { RenamedEmpty(f, Labels(d), Labels(e)); }
  }

  lemma RenamedEmpty(f: Text -> Text, a: map<Text, Text>, b: map<Text, Text>)
    requires Renames(f, a, b)
    ensures a == map[] <==> b == map[]
  {
  }

  lemma TwoLabels(j: Text, k: Text, v: Text, w: Text)
    requires Less(j, k)
    ensures Values(map[j := v, k := w], InOrder(map[j := v, k := w].Keys)) == v + w
  {
    var labels := map[j := v, k := w];
    SortedEnumerationUnique(InOrder(labels.Keys), [j, k]);
    assert [j, k][1..] == [k] && [k][1..] == [];
    assert Values(labels, [k]) == w + Values(labels, []);
  }

  lemma KeyTextOfTwo(e: Event, j: Text, k: Text, v: Text, w: Text)
    requires Less(j, k) && Labels(e) == map[j := v, k := w]
    ensures KeyText(e) == e.name + (v + w)
  {
    TwoLabels(j, k, v, w);
  }

  /** A renaming that changes the order of two labels swaps their values in the hashed text. */
  lemma ReorderingSwapsValues(name: Text, i: Text, j: Text, k: Text, v: Text, w: Text, time: int, p: nat, q: nat)
    requires Less(i, j) && Less(j, k)
    ensures KeyText(Event(name, time, Some(LabelsPtr(p, map[i := v, j := w])))) == name + (v + w)
    ensures KeyText(Event(name, time, Some(LabelsPtr(q, map[k := v, j := w])))) == name + (w + v)
  {
    KeyTextOfTwo(Event(name, time, Some(LabelsPtr(p, map[i := v, j := w]))), i, j, v, w);
    assert map[k := v, j := w] == map[j := w, k := v];
    KeyTextOfTwo(Event(name, time, Some(LabelsPtr(q, map[k := v, j := w]))), j, k, w, v);
  }

  lemma {:induction false} XorZero(a: nat)
    ensures Xor(a, 0) == a
  {
    if a != 0 { XorZero(a / 2); }
  }

  lemma XorOne(a: nat)
    ensures Xor(a, 1) == if a % 2 == 0 then a + 1 else a - 1
  {
    XorDigits(a, 1);
    XorZero(a / 2);
  }

  lemma {:induction false} FnvAppend(h: Word, s: Text, t: Text)
    ensures Fnv(h, s + t) == Fnv(Fnv(h, s), t)
    decreases |s|
  {
    if s == [] {
      assert s + t == t;
    } else {
      assert (s + t)[1..] == s[1..] + t;
      FnvAppend(FnvStep(h, s[0]), s[1..], t);
    }
  }

  lemma FnvOfTwo(h: Word, x: byte, y: byte)
    ensures Fnv(h, [x] + [y]) == FnvStep(FnvStep(h, x), y)
  {
    assert ([x] + [y])[1..] == [y] && [y][1..] == [];
    assert Fnv(FnvStep(h, x), [y]) == Fnv(FnvStep(FnvStep(h, x), y), []);
  }

  /** Multiplying a neighbour of `h` does not give a neighbour of the product. */
  lemma NeighboursApart(h: Word, g: Word, a: Word, b: Word)
    requires a == (h * PRIME) % WORD && b == (g * PRIME) % WORD && (g == h + 1 || g == h - 1)
    ensures b != a + 1 && b != a - 1
  {
  }

  /** Whatever was hashed before, the bytes 0 and 1 hash differently in the two orders. */
  lemma SwapSeparates(h: Word, zero: byte, one: byte)
    requires zero == 0 && one == 1
    ensures Fnv(h, [zero] + [one]) != Fnv(h, [one] + [zero])
  {
    FnvOfTwo(h, zero, one);
    FnvOfTwo(h, one, zero);
    var a, b := FnvStep(h, zero), FnvStep(h, one);
    XorZero(h);
    XorOne(h);
    XorZero(b);
    XorOne(a);
    NeighboursApart(h, Xor(h, one), a, b);
    if FnvStep(a, one) == FnvStep(b, zero) {
      PrimeInvertible(Xor(a, one));
      PrimeInvertible(Xor(b, zero));
    }
  }

  lemma DigestDetermines(g: Word, h: Word)
    requires HexEncode(SumBytes(g)) == HexEncode(SumBytes(h))
    ensures g == h
  {
    HexEncodeInjective(SumBytes(g), SumBytes(h));
    BytesDetermineSum(g, h);
  }

  /** Whatever the event is called, renaming its label "a" to "c" beside a label "b" changes the key when
      their values are the bytes 0 and 1: the values swap. */
  lemma RenamingCanChangeKey(name: Text, zero: byte, one: byte, d: Event, e: Event)
    requires zero == 0 && one == 1
    requires d == Event(name, 0, Some(LabelsPtr(0, map[[97] := [zero], [98] := [one]])))
    requires e == Event(name, 0, Some(LabelsPtr(0, map[[99] := [zero], [98] := [one]])))
    ensures EventKey(d) != EventKey(e)
  {
    ReorderingSwapsValues(name, [97], [98], [99], [zero], [one], 0, 0, 0);
    assert [97] in Labels(d) && [99] in Labels(e);
    FnvAppend(OFFSET_BASIS, name, [zero] + [one]);
    FnvAppend(OFFSET_BASIS, name, [one] + [zero]);
    SwapSeparates(Fnv(OFFSET_BASIS, name), zero, one);
    if EventKey(d) == EventKey(e) { DigestDetermines(Fnv(OFFSET_BASIS, KeyText(d)), Fnv(OFFSET_BASIS, KeyText(e))); }
  }

  lemma EmptyKeyText(e: Event)
    ensures e.name == [] && Labels(e) == map[] ==> KeyText(e) == []
  {
  }
}
