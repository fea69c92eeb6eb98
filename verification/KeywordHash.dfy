/**
 keywordCode and sqlite3KeywordCode (keywordhash.h:135-151, 276-284): a perfect-hash style lookup, proved to be
 a linear search through the keyword list that ignores ASCII case and reads the byte 0x7F as `_`.
 */
module KeywordHash {
  import opened KeywordTables
  import opened KeywordEntries
  import opened KeywordCodes

  const TK_ID := 55

  /** z[j] & ~0x20. */
  function Fold(c: byte): byte { c & 0xDF }

  /** What the inner loop accepts: the text has become w, byte by byte. */
  predicate Folds(z: seq<byte>, w: seq<byte>)
  {
    |z| == |w| && forall j :: 0 <= j < |z| ==> Fold(z[j]) == w[j]
  }

  /** The entry the walk along the chain stops at, or -1. */
  function Walk(z: seq<byte>, s: int): (r: int)
    requires s < 124
    ensures -1 <= r < 124
    ensures r >= 0 ==> Folds(z, Word(r))
    decreases s
  {
    hide ANext, Word, Folds;
    if s < 0 then -1 else if Folds(z, Word(s)) then s else Walk(z, ANext(s) - 1)
  }

  /** The entry a lookup finds, or -1; texts shorter than two bytes are not looked up. */
  function Hit(z: seq<byte>): (r: int)
    requires |z| < 0x8000_0000
    ensures -1 <= r < 124
    ensures r >= 0 ==> Folds(z, Word(r))
  {
    hide Head, Word, Folds, Walk;
    if |z| < 2 then -1 else Walk(z, Head(z))
  }

  /** The reference: the first keyword of the list that equals z, ASCII case aside. */
  predicate SameIgnoringCase(z: seq<byte>, w: seq<byte>)
  {
    |z| == |w| && forall j :: 0 <= j < |z| ==> Lower(z[j]) == Lower(w[j])
  }

  function SearchFrom(z: seq<byte>, i: nat): (r: int)
    requires i <= 124
    ensures r == -1 || (i <= r < 124 && SameIgnoringCase(z, Word(r)))
    ensures forall k :: i <= k < (if r < 0 then 124 else r) ==> !SameIgnoringCase(z, Word(k))
    decreases 124 - i
  {
    hide Word, SameIgnoringCase;
    if i == 124 then -1 else if SameIgnoringCase(z, Word(i)) then i else SearchFrom(z, i + 1)
  }

  function LinearSearch(z: seq<byte>): int { SearchFrom(z, 0) }

  function CodeOf(r: int): int
    requires r < 124
  {
    if r < 0 then TK_ID else ACode(r)
  }

  /** The text with every 0x7F read as an underscore. */
  function Mended(z: seq<byte>): (m: seq<byte>)
    ensures |m| == |z| && forall j :: 0 <= j < |z| ==> m[j] == if z[j] == 0x7F then 0x5F else z[j]
  {
    if z == [] then [] else Mended(z[..|z| - 1]) + [if z[|z| - 1] == 0x7F then 0x5F else z[|z| - 1]]
  }

  /** Byte j of keyword i is a letter, but for the underscore of the three keywords that have one. */
  predicate KeywordByte(i: nat, j: nat)
    requires i < 124 && j < |Word(i)|
  {
    if HasUnderscore(i) && j == 7 then Word(i)[j] == US else IsLetter(Word(i)[j])
  }

  lemma {:induction false} SpelledAt(off: int, w: seq<byte>, n: nat, us: bool, j: nat)
    requires j < n <= |w| && Spelled(off, w, n, us)
    ensures 0 <= off && off + n <= 553 && ZText(off + j) == w[j]
    ensures if us && j == 7 then w[j] == US else IsLetter(w[j])
    decreases n
  {
    hide ZText;
    if j < n - 1 { SpelledAt(off, w, n - 1, us, j); }
  }

  /** Every read of the packed text is in bounds, and reads the keyword. */
  lemma EntryReads(i: nat)
    requires i < 124
    ensures 2 <= |Word(i)| == ALen(i) && 0 <= AOffset(i) && AOffset(i) + ALen(i) <= 553
    ensures forall j :: 0 <= j < ALen(i) ==> ZText(AOffset(i) + j) == Word(i)[j] && KeywordByte(i, j)
  {
    AllShaped(i);
    AllInText(i);
    hide ZText, AOffset, ALen, Word, Spelled;
    SpelledAt(AOffset(i), Word(i), |Word(i)|, HasUnderscore(i), 0);
    forall j | 0 <= j < ALen(i) ensures ZText(AOffset(i) + j) == Word(i)[j] && KeywordByte(i, j) {
      SpelledAt(AOffset(i), Word(i), |Word(i)|, HasUnderscore(i), j);
    }
  }

  lemma FoldIsLower(c: byte, k: byte)
    requires IsLetter(k) || k == 0x5F
    ensures Fold(c) == k <==> Lower(if c == 0x7F then 0x5F else c) == Lower(k)
    ensures IsLetter(k) && Fold(c) == k ==> Lower(c) == Lower(k)
    ensures Lower(c) == Lower(k) ==> c != 0x7F
  {
  }

  /** Folding to a keyword is being that keyword, ASCII case aside, once 0x7F is read as `_`. */
  lemma FoldsIsSame(z: seq<byte>, i: nat)
    requires i < 124
    ensures Folds(z, Word(i)) <==> SameIgnoringCase(Mended(z), Word(i))
    ensures SameIgnoringCase(z, Word(i)) ==> 0x7F !in z
  {
    EntryReads(i);
    hide AOffset, ALen, Word, ZText, Mended, Lower, Fold;
    forall j | 0 <= j < |z| && |z| == |Word(i)|
      ensures Fold(z[j]) == Word(i)[j] <==> Lower(Mended(z)[j]) == Lower(Word(i)[j])
      ensures Lower(z[j]) == Lower(Word(i)[j]) ==> z[j] != 0x7F
    {
      assert ZText(AOffset(i) + j) == Word(i)[j] && KeywordByte(i, j);
      FoldIsLower(z[j], Word(i)[j]);
    }
  }

  /** The bucket depends only on what folding keeps. */
  lemma SameBucket(z: seq<byte>, i: nat)
    requires i < 124 && Folds(z, Word(i))
    ensures 2 <= |z| <= 17 && Head(z) == Head(Word(i))
  {
    AllShaped(i);
    FoldIsLower(z[0], Word(i)[0]);
    FoldIsLower(z[|z| - 1], Word(i)[|z| - 1]);
    hide Word, ALen, Lower, Width, Number, AHash, Blend;
  }

  lemma FoldsOnce(z: seq<byte>, v: seq<byte>, w: seq<byte>)
    requires Folds(z, v) && Folds(z, w)
    ensures v == w
  {
    assert forall j :: 0 <= j < |z| ==> v[j] == Fold(z[j]) == w[j];
  }

  lemma {:induction false} WalkFinds(z: seq<byte>, s: int, i: nat)
    requires s < 124 && i < 124 && Folds(z, Word(i)) && OnChain(Word(i), s, i)
    ensures Walk(z, s) == i
    decreases s
  {
    hide Word, ANext;
    if s != i {
      if Folds(z, Word(s)) { FoldsOnce(z, Word(s), Word(i)); }
      WalkFinds(z, ANext(s) - 1, i);
    }
  }

  /** A lookup finds entry i exactly when the text folds to keyword i: sound, complete and unambiguous. */
  lemma HitIsTheKeyword(z: seq<byte>, i: nat)
    requires |z| < 0x8000_0000 && i < 124
    ensures Hit(z) == i <==> Folds(z, Word(i))
  {
    hide Word, Folds, Walk, Head, OnChain;
    if Folds(z, Word(i)) {
      SameBucket(z, i);
      AllFound(i);
      WalkFinds(z, Head(z), i);
    }
  }

  /** The hash lookup is a linear search through the list, on every text, with 0x7F read as `_`. */
  lemma HitIsLinearSearch(z: seq<byte>)
    requires |z| < 0x8000_0000
    ensures Hit(z) == LinearSearch(Mended(z))
  {
    var r := LinearSearch(Mended(z));
    hide Word, Folds, SameIgnoringCase, Mended, Hit;
    if r >= 0 {
      FoldsIsSame(z, r);
      HitIsTheKeyword(z, r);
    } else if Hit(z) >= 0 {
      FoldsIsSame(z, Hit(z));
    }
  }

  /** The text is CURRENT_DATE, CURRENT_TIME or CURRENT_TIMESTAMP, ASCII case aside, with 0x7F for the underscore. */
  predicate Misread(z: seq<byte>)
  {
    && |z| > 7 && z[7] == 0x7F
    && var m := z[7 := US];
       || SameIgnoringCase(m, [C, U, R, R, E, N, T, US, D, A, T, E])
       || SameIgnoringCase(m, [C, U, R, R, E, N, T, US, T, I, M, E])
       || SameIgnoringCase(m, [C, U, R, R, E, N, T, US, T, I, M, E, S, T, A, M, P])
  }

  lemma UnderscoreWords()
    ensures Word(71) == [C, U, R, R, E, N, T, US, D, A, T, E]
    ensures Word(100) == [C, U, R, R, E, N, T, US, T, I, M, E]
    ensures Word(99) == [C, U, R, R, E, N, T, US, T, I, M, E, S, T, A, M, P]
  {
  }

  lemma SameHasUnderscore(z: seq<byte>, m: seq<byte>, i: nat, p: nat)
    requires i < 124 && p < |z| == |m| && SameIgnoringCase(m, Word(i)) && m[p] == US
    ensures HasUnderscore(i) && p == 7
  {
    EntryReads(i);
    hide AOffset, ALen, Word, ZText;
    assert KeywordByte(i, p);
    assert Lower(m[p]) == Lower(Word(i)[p]);
  }

  /** Putting underscores for 0x7F makes a keyword of no other text: the table has three keywords with an underscore. */
  lemma MendedIsMisread(z: seq<byte>)
    requires 0x7F in z && LinearSearch(Mended(z)) >= 0
    ensures Misread(z)
  {
    UnderscoreWords();
    hide Word;
    var i := LinearSearch(Mended(z));
    forall p | 0 <= p < |z| && z[p] == 0x7F ensures HasUnderscore(i) && p == 7 {
      SameHasUnderscore(z, Mended(z), i, p);
    }
    assert Mended(z) == z[7 := US];
    hide SameIgnoringCase;
  }

  lemma MisreadIsMended(z: seq<byte>)
    requires Misread(z)
    ensures 0x7F in z && LinearSearch(Mended(z)) >= 0
  {
    UnderscoreWords();
    var m := z[7 := US];
    hide Word, SameIgnoringCase;
    var i := if SameIgnoringCase(m, Word(71)) then 71 else if SameIgnoringCase(m, Word(99)) then 99 else 100;
    FoldsIsSame(m, i);
    assert forall p | 0 <= p < |z| && p != 7 :: z[p] == m[p];
    assert Mended(z) == m;
    hide Mended;
  }

  /** The code is the one a linear search gives, except for exactly those texts. */
  lemma LookupRefinesLinearSearch(z: seq<byte>)
    requires |z| < 0x8000_0000
    ensures CodeOf(Hit(z)) == CodeOf(LinearSearch(z)) <==> !Misread(z)
    ensures 0x7F !in z ==> Hit(z) == LinearSearch(z)
  {
    HitIsLinearSearch(z);
    if Misread(z) { MisreadIsMended(z); }
    if 0x7F in z && LinearSearch(Mended(z)) >= 0 { MendedIsMisread(z); }
    hide Hit, SameIgnoringCase, Word, ACode, Misread;
    if 0x7F !in z {
      assert Mended(z) == z;
    } else if LinearSearch(z) >= 0 {
      FoldsIsSame(z, LinearSearch(z));
    }
  }

  /** CURRENT\x7FDATE is taken for CURRENT_DATE. */
  lemma DeleteByteIsMisread()
    ensures Misread([C, U, R, R, E, N, T, 0x7F, D, A, T, E])
    ensures CodeOf(LinearSearch([C, U, R, R, E, N, T, 0x7F, D, A, T, E])) == TK_ID
  {
    var z := [C, U, R, R, E, N, T, 0x7F, D, A, T, E];
    assert z[7] == 0x7F;
    assert Word(71) == [C, U, R, R, E, N, T, US, D, A, T, E];
    hide Word, Mended, ACode;
    assert Folds(z, Word(71)) by { hide Lower; }
    hide Folds;
    FoldsIsSame(z, 71);
    if LinearSearch(z) >= 0 {
      FoldsIsSame(z, LinearSearch(z));
    }
    hide SameIgnoringCase;
  }

  /** keywordCode: the length, and the code of the keyword written over the given one if there is one. */
  method KeywordCode(z: seq<byte>, pType: int) returns (n: int, code: int)
    requires |z| < 0x8000_0000
    ensures n == |z| && code == if Hit(z) >= 0 then ACode(Hit(z)) else pType
  {
    hide ZText, AHash, ANext, ALen, AOffset, ACode, Word, Mix, Number;
    n, code := |z|, pType;
    if n >= 2 {
      var i := AHash(Hash(z)) - 1;
      while i >= 0
        invariant -1 <= i < 124 && Walk(z, i) == Hit(z) && code == pType
        decreases i
      {
        EntryReads(i);
        if ALen(i) == n {
          var j := 0;
          while j < n && Fold(z[j]) == ZText(AOffset(i) + j)
            invariant 0 <= j <= n && forall k :: 0 <= k < j ==> Fold(z[k]) == Word(i)[k]
          {
            j := j + 1;
          }
          if j == n {
            code := ACode(i);
            break;
          }
        }
        i := ANext(i) - 1;
      }
    }
  }

  /** A code by its terminal: that of keyword r, or ID. */
  lemma CodeNames(r: int)
    requires r < 124
    ensures 0 < CodeOf(r) < 143 && TokenName(CodeOf(r)) == if r < 0 then [I, D] else Terminal(r)
  {
    NamedConstants();
    hide TokenName, Terminal, ACode;
    if r >= 0 { AllNamed(r); }
  }

  /** sqlite3KeywordCode: the code of the keyword, or TK_ID. */
  method Sqlite3KeywordCode(z: seq<byte>) returns (id: int)
    requires |z| < 0x8000_0000
    ensures id == CodeOf(LinearSearch(Mended(z)))
    ensures id == CodeOf(LinearSearch(z)) <==> !Misread(z)
    ensures var r := LinearSearch(Mended(z));
            0 < id < 143 && TokenName(id) == if r < 0 then [I, D] else Terminal(r)
  {
    HitIsLinearSearch(z);
    LookupRefinesLinearSearch(z);
    hide Hit, LinearSearch, ACode, TokenName, Terminal;
    CodeNames(LinearSearch(Mended(z)));
    id := TK_ID;
    var n;
    n, id := KeywordCode(z, id);
  }
}
