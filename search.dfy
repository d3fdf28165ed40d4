/** The bank records of the directory and the suggestion filter run by the
    bank-name input handler: a bank is suggested when its name, hiragana
    reading or katakana reading contains the typed text. */
module Search {

  /** The `normalize` sub-record of a bank: its canonical display name. */
  datatype Normalize = Normalize(name: string)

  /** One entry of the bank directory, as the directory service returns it. */
  datatype Bank = Bank(code: string, name: string, hira: string, kana: string, normalize: Normalize)

  /** `q` occurs in `s` starting at position `i`. */
  ghost predicate OccursAt(q: string, s: string, i: int)
  {
    0 <= i <= |s| - |q| && s[i..i + |q|] == q
  }

  /** Reference definition: `q` occurs in `s` as a contiguous run of characters. */
  ghost predicate IsSubstring(q: string, s: string)
  {
    exists i :: OccursAt(q, s, i)
  }

  /** String `includes`, computed by trying every start position in turn.
      As in JavaScript, every string includes the empty string. */
  predicate Includes(s: string, q: string)
    ensures q == [] ==> Includes(s, q)
    ensures Includes(s, q) ==> |q| <= |s|
    decreases |s|
  {
    q <= s || (s != [] && Includes(s[1..], q))
  }

  /** `Includes` finds exactly the substrings. */
  lemma {:induction false} IncludesIsSubstring(s: string, q: string)
    ensures Includes(s, q) <==> IsSubstring(q, s)
    decreases |s|
  {
    if q <= s {
      assert OccursAt(q, s, 0);
    } else if s == [] {
    } else {
      IncludesIsSubstring(s[1..], q);
      if IsSubstring(q, s) {
        var i :| OccursAt(q, s, i);
        assert i != 0;
        assert OccursAt(q, s[1..], i - 1);
      }
      if IsSubstring(q, s[1..]) {
        var i :| OccursAt(q, s[1..], i);
        assert s[i + 1..i + 1 + |q|] == s[1..][i..i + |q|];
        assert OccursAt(q, s, i + 1);
      }
    }
  }

  /** The test the filter applies to each bank. */
  predicate Matches(bank: Bank, value: string)
  {
    Includes(bank.name, value) || Includes(bank.hira, value) || Includes(bank.kana, value)
  }

  /** `Matches` in terms of the reference substring relation. */
  lemma MatchesIsSubstring(bank: Bank, value: string)
    ensures Matches(bank, value) <==>
      IsSubstring(value, bank.name) || IsSubstring(value, bank.hira) || IsSubstring(value, bank.kana)
  {
    IncludesIsSubstring(bank.name, value);
    IncludesIsSubstring(bank.hira, value);
    IncludesIsSubstring(bank.kana, value);
  }

  /** `banks.filter(bank => bank matches value)`: the matching banks, front to back. */
  function Filter(banks: seq<Bank>, value: string): (r: seq<Bank>)
    ensures |r| <= |banks|
    ensures forall b :: b in r ==> b in banks && Matches(b, value)
  {
    if banks == [] then []
    else (if Matches(banks[0], value) then [banks[0]] else []) + Filter(banks[1..], value)
  }

  /** The suggestions computed for the typed value: nothing for an empty
      value, the filtered directory otherwise. */
  function Suggest(allBanks: seq<Bank>, value: string): (r: seq<Bank>)
    ensures |r| <= |allBanks|
    ensures forall b :: b in r ==> value != [] && b in allBanks && Matches(b, value)
  {
    if value != [] then Filter(allBanks, value) else []
  }

  /** `a` is `b` with some elements left out, the rest kept in order. */
  ghost predicate IsSubsequence<T>(a: seq<T>, b: seq<T>)
    decreases |b|
  {
    a == [] || (b != [] && ((a[0] == b[0] && IsSubsequence(a[1..], b[1..])) || IsSubsequence(a, b[1..])))
  }

  /** Every matching bank of the list is kept by the filter. */
  lemma {:induction false} FilterComplete(banks: seq<Bank>, value: string, b: Bank)
    requires b in banks && Matches(b, value)
    ensures b in Filter(banks, value)
  {
    if banks[0] != b {
      FilterComplete(banks[1..], value, b);
    }
  }

  /** The filter keeps the original relative order. */
  lemma {:induction false} FilterIsSubsequence(banks: seq<Bank>, value: string)
    ensures IsSubsequence(Filter(banks, value), banks)
  {
    if banks != [] {
      FilterIsSubsequence(banks[1..], value);
      var rest := Filter(banks[1..], value);
      if Matches(banks[0], value) {
        assert ([banks[0]] + rest)[1..] == rest;
      } else {
        assert [] + rest == rest;
      }
    }
  }

  /** The filter keeps every copy of a matching bank and no copy of any other. */
  lemma {:induction false} FilterCounts(banks: seq<Bank>, value: string, b: Bank)
    ensures multiset(Filter(banks, value))[b] == if Matches(b, value) then multiset(banks)[b] else 0
  {
    if banks != [] {
      FilterCounts(banks[1..], value, b);
      assert banks == [banks[0]] + banks[1..];
    }
  }

  /** The filter comes up empty exactly when no bank of the list matches. */
  lemma {:induction false} FilterEmpty(banks: seq<Bank>, value: string)
    ensures Filter(banks, value) == [] <==> forall b :: b in banks ==> !Matches(b, value)
  {
    if Filter(banks, value) == [] {
      forall b | b in banks ensures !Matches(b, value) {
        if Matches(b, value) {
          FilterComplete(banks, value, b);
        }
      }
    } else {
      assert Filter(banks, value)[0] in Filter(banks, value);
    }
  }

  /** An empty query never suggests anything; a non-empty one suggests
      exactly the directory entries whose name or a reading contains it. */
  lemma SuggestSpec(allBanks: seq<Bank>, value: string, b: Bank)
    ensures value == [] ==> Suggest(allBanks, value) == []
    ensures b in Suggest(allBanks, value) <==>
      value != [] && b in allBanks &&
      (IsSubstring(value, b.name) || IsSubstring(value, b.hira) || IsSubstring(value, b.kana))
  {
    MatchesIsSubstring(b, value);
    if value != [] && b in allBanks && Matches(b, value) {
      FilterComplete(allBanks, value, b);
    }
  }

  /** The suggestions are the matching entries of the directory in their
      directory order, each as many times as the directory holds it. */
  lemma SuggestOrder(allBanks: seq<Bank>, value: string, b: Bank)
    ensures IsSubsequence(Suggest(allBanks, value), allBanks)
    ensures value != [] ==>
      multiset(Suggest(allBanks, value))[b] == if Matches(b, value) then multiset(allBanks)[b] else 0
  {
    if value != [] {
      FilterIsSubsequence(allBanks, value);
      FilterCounts(allBanks, value, b);
    }
  }
}
