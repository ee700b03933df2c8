/** The checker's bitset: a slice of 64-bit words, written in place. A word is its 64 bits, least
    significant first; a bitset means the set of positions whose bit is on. */
module Bitset {
  import opened Collections

  const WORD: nat := 64

  type Word = w: seq<bool> | |w| == WORD witness seq(WORD, _ => false)

  const ZERO: Word := seq(WORD, _ => false)

  /** The word `1 << minor`. */
  function Mask(minor: nat): Word {
    seq(WORD, i => i == minor)
  }

  function Or(a: Word, b: Word): Word {
    seq(WORD, i requires 0 <= i < WORD => a[i] || b[i])
  }

  function AndNot(a: Word, b: Word): Word {
    seq(WORD, i requires 0 <= i < WORD => a[i] && !b[i])
  }

  function Xor(a: Word, b: Word): Word {
    seq(WORD, i requires 0 <= i < WORD => a[i] != b[i])
  }

  /** The unsigned 64-bit word holding `n`, reduced modulo 2^64. */
  function ToWord(n: nat): Word {
    seq(WORD, i requires 0 <= i < WORD => n / Pow2(i) % 2 == 1)
  }

  /** Number of one bits among the lowest `k` of `w`. */
  function OnesBelow(w: Word, k: nat): nat
    requires k <= WORD
  {
    if k == 0 then 0 else OnesBelow(w, k - 1) + if w[k - 1] then 1 else 0
  }

  function OnesCount(w: Word): nat {
    OnesBelow(w, WORD)
  }

  /** Position `pos` is a member of the set stored in `words`. */
  predicate Has(words: seq<Word>, pos: nat) {
    pos / WORD < |words| && words[pos / WORD][pos % WORD]
  }

  /** The set of positions stored in `words`. */
  function Members(words: seq<Word>): set<nat> {
    set pos: nat | pos < WORD * |words| && Has(words, pos)
  }

  lemma MembersIsHas(words: seq<Word>)
    ensures forall pos: nat :: pos in Members(words) <==> Has(words, pos)
  {
    forall pos: nat | Has(words, pos) ensures pos < WORD * |words| {
    }
  }

  /** Two bitsets of one length are word by word equal exactly when they store the same set. */
  lemma SameWordsSameMembers(a: seq<Word>, b: seq<Word>)
    requires |a| == |b|
    ensures a == b <==> Members(a) == Members(b)
  {
    if Members(a) == Members(b) {
      MembersIsHas(a);
      MembersIsHas(b);
      forall major | 0 <= major < |a| ensures a[major] == b[major] {
        forall minor | 0 <= minor < WORD ensures a[major][minor] == b[major][minor] {
          var pos := WORD * major + minor;
          assert pos / WORD == major && pos % WORD == minor;
          assert Has(a, pos) == Has(b, pos);
        }
      }
    }
  }

  // ----- operations

  method NewBitset(bits: nat) returns (b: array<Word>)
    ensures fresh(b)
    ensures b.Length == (bits + 63) / 64 && bits <= WORD * b.Length
    ensures Members(b[..]) == {}
  {
    var extra := 0;
    if bits % WORD != 0 {
      extra := 1;
    }
    var chunks := bits / WORD + extra;
    b := new Word[chunks](_ => ZERO);
  }

  method Clone(b: array<Word>) returns (copy: array<Word>)
    ensures fresh(copy)
    ensures copy[..] == b[..]
  {
    copy := new Word[b.Length];
    for i := 0 to b.Length
      invariant forall j :: 0 <= j < i ==> copy[j] == b[j]
    {
      copy[i] := b[i];
    }
  }

  function BitsetIndex(pos: nat): (nat, nat) {
    (pos / WORD, pos % WORD)
  }

  /** Turning one position on adds it to the set and touches nothing else. */
  method Set(b: array<Word>, pos: nat)
    requires pos < WORD * b.Length
    modifies b
    ensures Members(b[..]) == Members(old(b[..])) + {pos}
  {
    var (major, minor) := BitsetIndex(pos);
    b[major] := Or(b[major], Mask(minor));
    MembersIsHas(b[..]);
    MembersIsHas(old(b[..]));
    forall q: nat ensures Has(b[..], q) <==> q == pos || Has(old(b[..]), q) {
      if q / WORD == major && q % WORD == minor {
        assert q == pos;
      }
    }
  }

  method Clear(b: array<Word>, pos: nat)
    requires pos < WORD * b.Length
    modifies b
    ensures Members(b[..]) == Members(old(b[..])) - {pos}
  {
    var (major, minor) := BitsetIndex(pos);
    b[major] := AndNot(b[major], Mask(minor));
    MembersIsHas(b[..]);
    MembersIsHas(old(b[..]));
    forall q: nat ensures Has(b[..], q) <==> q != pos && Has(old(b[..]), q) {
      if q / WORD == major && q % WORD == minor {
        assert q == pos;
      }
    }
  }

  method Get(b: array<Word>, pos: nat) returns (r: bool)
    requires pos < WORD * b.Length
    ensures r <==> pos in Members(b[..])
  {
    var (major, minor) := BitsetIndex(pos);
    r := b[major][minor];
  }

  /** `equals` compares lengths and then words; on bitsets of one length it decides
      equality of the stored sets. */
  method Equals(a: array<Word>, b: seq<Word>) returns (r: bool)
    ensures r <==> a[..] == b
    ensures a.Length == |b| ==> (r <==> Members(a[..]) == Members(b))
  {
    if a.Length == |b| {
      SameWordsSameMembers(a[..], b);
    }
    if a.Length != |b| {
      return false;
    }
    for i := 0 to a.Length
      invariant forall j :: 0 <= j < i ==> a[j] == b[j]
    {
      if a[i] != b[i] {
        return false;
      }
    }
    return true;
  }

  // ----- population count and hash

  function Ones(words: seq<Word>): nat {
    if words == [] then 0 else Ones(words[..|words| - 1]) + OnesCount(words[|words| - 1])
  }

  function XorAll(seed: Word, words: seq<Word>): Word {
    if words == [] then seed
    else Xor(XorAll(seed, words[..|words| - 1]), words[|words| - 1])
  }

  function Hash(words: seq<Word>): Word {
    XorAll(ToWord(Ones(words)), words)
  }

  method PopCnt(b: array<Word>) returns (total: nat)
    ensures total == Ones(b[..]) == |Members(b[..])|
  {
    total := 0;
    for i := 0 to b.Length
      invariant total == Ones(b[..i])
    {
      assert b[..i + 1][..i] == b[..i];
      total := total + OnesCount(b[i]);
    }
    assert b[..] == b[..b.Length];
    OnesIsCardinality(b[..]);
  }

  /** The words that have bit `k` on. */
  ghost function With(words: seq<Word>, k: nat): set<nat>
    requires k < WORD
  {
    set w: nat | w < |words| && words[w][k]
  }

  lemma {:induction false} XorAllBits(seed: Word, words: seq<Word>, k: nat)
    requires k < WORD
    ensures XorAll(seed, words)[k] == (seed[k] != (|With(words, k)| % 2 == 1))
  {
    if words == [] {
      assert With(words, k) == {};
    } else {
      hide With;
      XorAllBits(seed, words[..|words| - 1], k);
      WithLast(words, k);
    }
  }

  lemma WithLast(words: seq<Word>, k: nat)
    requires k < WORD && words != []
    ensures var n := |words| - 1; |With(words, k)| == |With(words[..n], k)| + if words[n][k] then 1 else 0
  {
    var n := |words| - 1;
    var front := With(words[..n], k);
    assert forall w: nat :: w in front <==> w < n && words[w][k];
    if words[n][k] {
      assert With(words, k) == front + {n};
    } else {
      assert With(words, k) == front;
    }
  }

  /** Bit `k` of the hash is that of the number of members, flipped for every word that has it on. */
  lemma HashBits(words: seq<Word>, k: nat)
    requires k < WORD
    ensures Hash(words)[k] == ((|Members(words)| / Pow2(k) % 2 == 1) != (|With(words, k)| % 2 == 1))
  {
    OnesIsCardinality(words);
    XorAllBits(ToWord(Ones(words)), words, k);
  }

  method HashOf(b: array<Word>) returns (hash: Word)
    ensures hash == Hash(b[..])
    ensures forall k :: 0 <= k < WORD ==>
      hash[k] == ((|Members(b[..])| / Pow2(k) % 2 == 1) != (|With(b[..], k)| % 2 == 1))
  {
    forall k | 0 <= k < WORD
      ensures Hash(b[..])[k] == ((|Members(b[..])| / Pow2(k) % 2 == 1) != (|With(b[..], k)| % 2 == 1))
    {
      HashBits(b[..], k);
    }
    hide Members, With, Pow2;
    var ones := PopCnt(b);
    hash := ToWord(ones);
    for i := 0 to b.Length
      invariant hash == XorAll(ToWord(ones), b[..i])
    {
      assert b[..i + 1][..i] == b[..i];
      hash := Xor(hash, b[i]);
    }
    assert b[..] == b[..b.Length];
  }

  ghost function Prefix(words: seq<Word>, k: nat): set<nat> {
    set pos: nat | pos < k && Has(words, pos)
  }

  lemma {:induction false} OnesBelowIsCardinality(words: seq<Word>, k: nat)
    requires |words| > 0 && k <= WORD
    ensures |Prefix(words, WORD * (|words| - 1) + k)|
         == |Prefix(words, WORD * (|words| - 1))| + OnesBelow(words[|words| - 1], k)
  {
    if k > 0 {
      OnesBelowIsCardinality(words, k - 1);
      var last := WORD * (|words| - 1) + k - 1;
      assert last / WORD == |words| - 1 && last % WORD == k - 1;
      if Has(words, last) {
        assert Prefix(words, last + 1) == Prefix(words, last) + {last};
      } else {
        assert Prefix(words, last + 1) == Prefix(words, last);
      }
    }
  }

  /** The population count is the size of the stored set. */
  lemma {:induction false} OnesIsCardinality(words: seq<Word>)
    ensures Ones(words) == |Members(words)|
  {
    if words == [] {
      assert Members(words) == {};
    } else {
      var init := words[..|words| - 1];
      OnesIsCardinality(init);
      OnesBelowIsCardinality(words, WORD);
      assert Prefix(words, WORD * |words|) == Members(words);
      assert Prefix(words, WORD * |init|) == Members(init) by {
        forall pos: nat | pos < WORD * |init| ensures Has(words, pos) == Has(init, pos) {
        }
      }
    }
  }

  /** Bitsets of one length that store the same set fall into the same hash bucket. */
  lemma SameMembersSameHash(a: seq<Word>, b: seq<Word>)
    requires |a| == |b| && Members(a) == Members(b)
    ensures Hash(a) == Hash(b)
  {
    SameWordsSameMembers(a, b);
  }
}
