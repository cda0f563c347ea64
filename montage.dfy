/** The bipolar montage builder of utils.py: `channel_sort_list` orders
    electrode contact names so that "A2" comes before "A10", `define_pairs`
    pairs neighbouring contacts of one lead, and `bipolar_montage` subtracts
    the two signals of every pair. Characters are classified as ASCII. */
module Montage {
  import opened Numerics
  import opened Outcomes
  import Sorting

  type Name = string

  predicate IsDigit(c: char) {
    '0' <= c <= '9'
  }

  predicate IsAlpha(c: char) {
    'a' <= c <= 'z' || 'A' <= c <= 'Z'
  }

  /** `[x for x in channel if x.isdigit()]`, joined. */
  function Digits(s: Name): (d: string)
    ensures |d| <= |s|
    ensures forall i :: 0 <= i < |d| ==> IsDigit(d[i])
  {
    if |s| == 0 then "" else (if IsDigit(s[0]) then [s[0]] else "") + Digits(s[1..])
  }

  lemma {:induction false} DigitsAppend(a: Name, b: Name)
    ensures Digits(a + b) == Digits(a) + Digits(b)
  {
    if |a| > 0 {
      assert (a + b)[1..] == a[1..] + b;
      DigitsAppend(a[1..], b);
    } else {
      assert a + b == b;
    }
  }

  /** `channel.index(digits[0])`: the first occurrence of the first digit,
      which is the position of the first digit of the name. */
  function FirstDigit(s: Name): (k: nat)
    requires |Digits(s)| > 0
    ensures k < |s| && s[k] == Digits(s)[0]
    ensures forall j :: 0 <= j < k ==> !IsDigit(s[j])
  {
    if IsDigit(s[0]) then 0 else 1 + FirstDigit(s[1..])
  }

  /** The digits of a name split at its first digit: none before it. */
  lemma FirstDigitSplit(s: Name)
    requires |Digits(s)| > 0
    ensures Digits(s[..FirstDigit(s)]) == ""
    ensures Digits(s) == Digits(s[FirstDigit(s)..])
  {
    var k := FirstDigit(s);
    NoDigits(s[..k]);
    DigitsSplit(s, k);
  }

  lemma {:induction false} DigitsSplit(s: Name, k: nat)
    requires k <= |s|
    ensures Digits(s) == Digits(s[..k]) + Digits(s[k..])
  {
    if k == 0 {
      assert s[..k] == [] && s[k..] == s;
    } else {
      DigitsSplit(s[1..], k - 1);
      assert s[..k][1..] == s[1..][..k - 1];
      assert s[1..][k - 1..] == s[k..];
    }
  }

  lemma {:induction false} NoDigits(s: Name)
    requires forall j :: 0 <= j < |s| ==> !IsDigit(s[j])
    ensures Digits(s) == ""
  {
    if |s| > 0 {
      NoDigits(s[1..]);
    }
  }

  /** The renaming before the sort: a single digit gets a '0' in front of it. */
  function Pad(s: Name): Name {
    if |Digits(s)| == 1 then
      var k := FirstDigit(s);
      s[..k] + "0" + s[k..]
    else s
  }

  /** The renaming after the sort: a name whose first digit is '0' loses it. */
  function Unpad(s: Name): Name {
    if |Digits(s)| > 0 && Digits(s)[0] == '0' then
      var k := FirstDigit(s);
      s[..k] + s[k + 1..]
    else s
  }

  /** The names the two renamings give back unchanged: all but those with
      two or more digits of which the first is '0' ("A01" comes back "A1"). */
  predicate Restorable(s: Name) {
    !(|Digits(s)| >= 2 && Digits(s)[0] == '0')
  }

  lemma UnpadPad(s: Name)
    requires Restorable(s)
    ensures Unpad(Pad(s)) == s
  {
    if |Digits(s)| == 1 {
      var k := FirstDigit(s);
      FirstDigitSplit(s);
      var p := Pad(s);
      assert p == s[..k] + ("0" + s[k..]);
      DigitsAppend(s[..k], "0" + s[k..]);
      DigitsAppend("0", s[k..]);
      assert Digits(p) == "0" + Digits(s);
      var kp := FirstDigit(p);
      assert p[k] == '0';
      assert s[..k] == p[..k];
      assert kp == k;
      assert p[..k] + p[k + 1..] == s;
    }
  }

  /** Python's `<=` on strings: lexicographic by code point. */
  predicate LexLe(a: Name, b: Name) {
    if |a| == 0 then true
    else if |b| == 0 then false
    else if a[0] != b[0] then a[0] < b[0]
    else LexLe(a[1..], b[1..])
  }

  lemma {:induction false} LexLeTotal(a: Name, b: Name)
    ensures LexLe(a, b) || LexLe(b, a)
  {
    if |a| > 0 && |b| > 0 && a[0] == b[0] {
      LexLeTotal(a[1..], b[1..]);
    }
  }

  lemma {:induction false} LexLeTransitive(a: Name, b: Name, c: Name)
    requires LexLe(a, b) && LexLe(b, c)
    ensures LexLe(a, c)
  {
    if |a| > 0 && |b| > 0 && |c| > 0 && a[0] == b[0] && b[0] == c[0] {
      LexLeTransitive(a[1..], b[1..], c[1..]);
    }
  }

  lemma {:induction false} LexLeAntisymmetric(a: Name, b: Name)
    requires LexLe(a, b) && LexLe(b, a)
    ensures a == b
  {
    if |a| > 0 && |b| > 0 {
      LexLeAntisymmetric(a[1..], b[1..]);
      assert a == [a[0]] + a[1..] && b == [b[0]] + b[1..];
    }
  }

  /** String comparison is a total order, so sorting by it is well defined. */
  lemma LexOrder()
    ensures Sorting.Total(LexLe) && Sorting.Transitive(LexLe) && Sorting.Antisymmetric(LexLe)
  {
    forall a, b ensures LexLe(a, b) || LexLe(b, a) {
      LexLeTotal(a, b);
    }
    forall a, b, c | LexLe(a, b) && LexLe(b, c) ensures LexLe(a, c) {
      LexLeTransitive(a, b, c);
    }
    forall a, b | LexLe(a, b) && LexLe(b, a) ensures a == b {
      LexLeAntisymmetric(a, b);
    }
  }

  /** What `channel_sort_list` returns: the padded names in string order,
      each with a leading '0' of its number removed. */
  function SortChannels(channels: seq<Name>): (r: seq<Name>)
    ensures |r| == |channels|
  {
    Sorting.MapSeq(Unpad, Sorting.Sort(Sorting.MapSeq(Pad, channels), LexLe))
  }

  /** `channel_sort_list(channels)`, utils.py:5-34: rename every name with
      `Pad` into a new list, sort the list, then rename every entry in place
      with `Unpad`. */
  method ChannelSortList(channels: seq<Name>) returns (modified: seq<Name>)
    ensures modified == SortChannels(channels)
  {
    modified := [];
    for i := 0 to |channels|
      invariant modified == Sorting.MapSeq(Pad, channels[..i])
    {
      assert channels[..i + 1] == channels[..i] + [channels[i]];
      Sorting.MapSeqAppend(Pad, channels[..i], [channels[i]]);
      modified := modified + [Pad(channels[i])];
    }
    assert channels[..|channels|] == channels;
    // list.sort: the library's sort, for which `Sorting.Sort` stands in.
    modified := Sorting.Sort(modified, LexLe);
    ghost var sorted := modified;
    for ci := 0 to |modified|
      invariant |modified| == |sorted|
      invariant forall j :: 0 <= j < ci ==> modified[j] == Unpad(sorted[j])
      invariant forall j :: ci <= j < |modified| ==> modified[j] == sorted[j]
    {
      modified := modified[ci := Unpad(modified[ci])];
    }
  }

  /** When every name is restorable, `channel_sort_list` only reorders. */
  lemma SortChannelsPermutation(channels: seq<Name>)
    requires forall i :: 0 <= i < |channels| ==> Restorable(channels[i])
    ensures multiset(SortChannels(channels)) == multiset(channels)
  {
    var padded := Sorting.MapSeq(Pad, channels);
    var sorted := Sorting.Sort(padded, LexLe);
    Sorting.MapSeqPermutation(Unpad, sorted, padded);
    var back := Sorting.MapSeq(Unpad, padded);
    forall i | 0 <= i < |channels| ensures back[i] == channels[i] {
      UnpadPad(channels[i]);
    }
    assert back == channels;
  }

  /** The result, padded again, is in string order: contact numbers below 10
      sort as if written with two digits, so "A2" precedes "A10". */
  lemma SortChannelsOrdered(channels: seq<Name>)
    requires forall i :: 0 <= i < |channels| ==> Restorable(channels[i])
    ensures Sorting.SortedBy(Sorting.MapSeq(Pad, SortChannels(channels)), LexLe)
  {
    RepadSorted(channels);
    LexOrder();
    Sorting.SortIsSorted(Sorting.MapSeq(Pad, channels), LexLe);
  }

  /** Padding the result again gives back the sorted padded names. */
  lemma RepadSorted(channels: seq<Name>)
    requires forall i :: 0 <= i < |channels| ==> Restorable(channels[i])
    ensures Sorting.MapSeq(Pad, SortChannels(channels)) == Sorting.Sort(Sorting.MapSeq(Pad, channels), LexLe)
  {
    var padded := Sorting.MapSeq(Pad, channels);
    var sorted := Sorting.Sort(padded, LexLe);
    var again := Sorting.MapSeq(Pad, SortChannels(channels));
    forall i | 0 <= i < |sorted| ensures again[i] == sorted[i] {
      assert sorted[i] in multiset(padded);
      var j := Sorting.IndexOfMember(padded, sorted[i]);
      UnpadPad(channels[j]);
    }
  }

  /** "A10" and "A2" come out as "A2", "A10". */
  lemma SortChannelsExample()
    ensures SortChannels(["A10", "A2"]) == ["A2", "A10"]
  {
    assert Sorting.MapSeq(Pad, ["A10", "A2"]) == ["A10", "A02"] by {
      Sorting.MapSeqTwo(Pad, "A10", "A2");
      PadExample();
    }
    assert Sorting.Sort(["A10", "A02"], LexLe) == ["A02", "A10"] by {
      SortExample(["A10", "A02"]);
    }
    assert Sorting.MapSeq(Unpad, ["A02", "A10"]) == ["A2", "A10"] by {
      Sorting.MapSeqTwo(Unpad, "A02", "A10");
      UnpadExample();
    }
  }

  lemma PadExample()
    ensures Pad("A2") == "A02" && Pad("A10") == "A10"
  {
    assert Digits("A10") == "10" && Digits("A2") == "2";
    assert FirstDigit("A2") == 1;
    assert "A2"[..1] + "0" + "A2"[1..] == "A02";
  }

  lemma UnpadExample()
    ensures Unpad("A02") == "A2" && Unpad("A10") == "A10"
  {
    assert Digits("A02") == "02" && Digits("A10") == "10";
  }

  lemma SortExample(padded: seq<Name>)
    requires padded == ["A10", "A02"]
    ensures Sorting.Sort(padded, LexLe) == ["A02", "A10"]
  {
    LexOrder();
    var r := ["A02", "A10"];
    assert LexLe("A02", "A10");
    assert Sorting.SortedBy(r, LexLe);
    assert r == [padded[1], padded[0]];
    assert multiset(r) == multiset(padded);
    Sorting.SortIsUnique(padded, r, LexLe);
  }

  /** The lead label of a name: its letters and apostrophes, in order. */
  function Base(s: Name): (b: string)
    ensures forall i :: 0 <= i < |b| ==> IsAlpha(b[i]) || b[i] == '\''
  {
    if |s| == 0 then ""
    else (if IsAlpha(s[0]) || s[0] == '\'' then [s[0]] else "") + Base(s[1..])
  }

  /** `int(d)` for a string of decimal digits; leading zeros are allowed. */
  function DigitsValue(d: string): nat
    requires forall i :: 0 <= i < |d| ==> IsDigit(d[i])
  {
    if |d| == 0 then 0
    else
      var c := d[|d| - 1];
      assert IsDigit(c);
      10 * DigitsValue(d[..|d| - 1]) + (c as int - '0' as int)
  }

  /** The contact number of a name: all its digits read as one integer. */
  function Number(s: Name): nat {
    DigitsValue(Digits(s))
  }

  /** `str(n)`: decimal digits without leading zeros. */
  function NatToString(n: nat): (r: string)
    ensures |r| > 0 && forall i :: 0 <= i < |r| ==> IsDigit(r[i])
  {
    var d := [(('0' as int) + n % 10) as char];
    if n < 10 then d else NatToString(n / 10) + d
  }

  /** `int(str(n)) == n`. */
  lemma {:induction false} NatToStringValue(n: nat)
    ensures DigitsValue(NatToString(n)) == n
  {
    var r := NatToString(n);
    if n >= 10 {
      NatToStringValue(n / 10);
      assert r[..|r| - 1] == NatToString(n / 10);
    }
  }

  predicate HasDigits(s: Name) {
    |Digits(s)| > 0
  }

  /** The names that keep a place in `define_pairs`: those with a digit. */
  function WithDigits(names: seq<Name>): (r: seq<Name>)
    ensures |r| <= |names|
  {
    if |names| == 0 then []
    else
      var last := names[|names| - 1];
      WithDigits(names[..|names| - 1]) + (if HasDigits(last) then [last] else [])
  }

  /** Every kept name has a digit and is one of the names. */
  lemma {:induction false} WithDigitsMembers(names: seq<Name>)
    ensures forall x :: x in WithDigits(names) ==> HasDigits(x) && x in names
  {
    if |names| > 0 {
      var init := names[..|names| - 1];
      WithDigitsMembers(init);
      assert names == init + [names[|names| - 1]];
    }
  }

  lemma WithDigitsStep(names: seq<Name>, i: nat)
    requires i < |names|
    ensures WithDigits(names[..i + 1]) ==
      WithDigits(names[..i]) + (if HasDigits(names[i]) then [names[i]] else [])
  {
    assert names[..i + 1][..i] == names[..i];
  }

  lemma {:induction false} WithDigitsAll(names: seq<Name>)
    requires forall i :: 0 <= i < |names| ==> HasDigits(names[i])
    ensures WithDigits(names) == names
  {
    if |names| > 0 {
      WithDigitsAll(names[..|names| - 1]);
      assert names == names[..|names| - 1] + [names[|names| - 1]];
    }
  }

  datatype Pair = Pair(first: Name, second: Name)

  /** Two neighbouring contacts of one lead: the same label and numbers
      that differ by one. */
  predicate Adjacent(a: Name, b: Name) {
    Base(a) == Base(b) && Number(b) == Number(a) + 1
  }

  /** The neighbours `(k[i], k[i + 1])` among the first `n` that satisfy
      `adj`, in order. */
  function PairsWhere(adj: (Name, Name) -> bool, k: seq<Name>, n: nat): seq<Pair>
    requires n == 0 || n < |k|
  {
    if n == 0 then []
    else
      PairsWhere(adj, k, n - 1) + (if adj(k[n - 1], k[n]) then [Pair(k[n - 1], k[n])] else [])
  }

  /** The pairs found among the first `n` neighbours: the adjacent contacts. */
  function PairsUpTo(k: seq<Name>, n: nat): seq<Pair>
    requires n == 0 || n < |k|
  {
    PairsWhere(Adjacent, k, n)
  }

  function Pairs(k: seq<Name>): seq<Pair> {
    PairsUpTo(k, if |k| == 0 then 0 else |k| - 1)
  }

  /** The bipolar name of a pair: the first name, '_', the second number. */
  function PairName(p: Pair): Name {
    p.first + "_" + NatToString(Number(p.second))
  }

  /** `define_pairs(channels)`, utils.py:37-77: sort the names, take the
      lead label and the number of every name, drop the names without a
      number, and pair the neighbours that are adjacent contacts. */
  method DefinePairs(names: seq<Name>) returns (bipolarPairs: seq<Pair>, bipolarNames: seq<Name>)
    ensures bipolarPairs == Pairs(WithDigits(SortChannels(names)))
    ensures bipolarNames == Sorting.MapSeq(PairName, bipolarPairs)
  {
    var channels := ChannelSortList(names);
    var channelBases := LeadLabels(channels);
    var channelNums, notUseNum := ContactNumbers(channels);
    if |notUseNum| > 0 {
      channels, channelBases := DropUnnumbered(channels, channelBases, notUseNum);
    } else {
      WithDigitsAll(channels);
    }
    bipolarPairs, bipolarNames := PairNeighbours(channels, channelBases, channelNums);
  }

  /** The lead labels, utils.py:47-49. */
  method LeadLabels(channels: seq<Name>) returns (channelBases: seq<string>)
    ensures channelBases == Sorting.MapSeq(Base, channels)
  {
    channelBases := [];
    for i := 0 to |channels|
      invariant channelBases == Sorting.MapSeq(Base, channels[..i])
    {
      assert channels[..i + 1] == channels[..i] + [channels[i]];
      Sorting.MapSeqAppend(Base, channels[..i], [channels[i]]);
      channelBases := channelBases + [Base(channels[i])];
    }
    assert channels[..|channels|] == channels;
  }

  /** The contact numbers of the names that have digits, and the positions
      of those that have none, utils.py:51-58. */
  method ContactNumbers(channels: seq<Name>) returns (channelNums: seq<nat>, notUseNum: seq<nat>)
    ensures channelNums == Sorting.MapSeq(Number, WithDigits(channels))
    ensures forall j :: 0 <= j < |channels| ==> (j in notUseNum <==> !HasDigits(channels[j]))
    ensures |notUseNum| == 0 ==> forall j :: 0 <= j < |channels| ==> HasDigits(channels[j])
  {
    channelNums := [];
    notUseNum := [];
    for i := 0 to |channels|
      invariant channelNums == Sorting.MapSeq(Number, WithDigits(channels[..i]))
      invariant forall j :: 0 <= j < |channels| ==> (j in notUseNum <==> j < i && !HasDigits(channels[j]))
    {
      var prefix := channels[..i];
      WithDigitsStep(channels, i);
      var num := Digits(channels[i]);
      if num != "" {
        Sorting.MapSeqAppend(Number, WithDigits(prefix), [channels[i]]);
        channelNums := channelNums + [DigitsValue(num)];
      } else {
        notUseNum := notUseNum + [i];
      }
    }
    assert channels[..|channels|] == channels;
  }

  /** Keep the names, and their labels, whose position is not listed as
      having no number, utils.py:60-64. */
  method DropUnnumbered(channels: seq<Name>, channelBases: seq<string>, notUseNum: seq<nat>)
    returns (kept: seq<Name>, keptBases: seq<string>)
    requires channelBases == Sorting.MapSeq(Base, channels)
    requires forall j :: 0 <= j < |channels| ==> (j in notUseNum <==> !HasDigits(channels[j]))
    ensures kept == WithDigits(channels)
    ensures keptBases == Sorting.MapSeq(Base, kept)
  {
    kept := [];
    keptBases := [];
    for k := 0 to |channels|
      invariant kept == WithDigits(channels[..k])
      invariant keptBases == Sorting.MapSeq(Base, kept)
    {
      DropStep(channels, channelBases, notUseNum, k, kept, keptBases);
      if k !in notUseNum {
        keptBases := keptBases + [channelBases[k]];
        kept := kept + [channels[k]];
      }
    }
    assert channels[..|channels|] == channels;
  }

  /** The pairs of neighbours on one lead with consecutive numbers, and their
      names, utils.py:66-74. */
  method PairNeighbours(channels: seq<Name>, channelBases: seq<string>, channelNums: seq<nat>)
    returns (bipolarPairs: seq<Pair>, bipolarNames: seq<Name>)
    requires channelBases == Sorting.MapSeq(Base, channels)
    requires channelNums == Sorting.MapSeq(Number, channels)
    ensures bipolarPairs == Pairs(channels)
    ensures bipolarNames == Sorting.MapSeq(PairName, bipolarPairs)
  {
    bipolarPairs := [];
    bipolarNames := [];
    var last := if |channels| == 0 then 0 else |channels| - 1;
    for i := 0 to last
      invariant bipolarPairs == PairsUpTo(channels, i)
      invariant bipolarNames == Sorting.MapSeq(PairName, bipolarPairs)
    {
      var ch := channels[i];
      PairStep(channels, channelBases, channelNums, i, bipolarPairs, bipolarNames);
      if channelBases[i + 1] == channelBases[i] && channelNums[i + 1] == channelNums[i] + 1 {
        var p := Pair(ch, channels[i + 1]);
        bipolarPairs := bipolarPairs + [p];
        bipolarNames := bipolarNames + [ch + "_" + NatToString(channelNums[i + 1])];
      }
    }
  }

  /** One step of the pairing loop: the test on the stored labels and
      numbers is `Adjacent`, and the name appended is `PairName`. */
  lemma PairStep(channels: seq<Name>, channelBases: seq<string>, channelNums: seq<nat>, i: nat,
                 ps: seq<Pair>, names: seq<Name>)
    requires channelBases == Sorting.MapSeq(Base, channels)
    requires channelNums == Sorting.MapSeq(Number, channels)
    requires i + 1 < |channels|
    requires ps == PairsUpTo(channels, i) && names == Sorting.MapSeq(PairName, ps)
    ensures var adjacent := channelBases[i + 1] == channelBases[i] && channelNums[i + 1] == channelNums[i] + 1;
      var p := Pair(channels[i], channels[i + 1]);
      PairsUpTo(channels, i + 1) == ps + (if adjacent then [p] else []) &&
      (adjacent ==> Sorting.MapSeq(PairName, ps + [p]) == names + [channels[i] + "_" + NatToString(channelNums[i + 1])])
  {
    var p := Pair(channels[i], channels[i + 1]);
    Sorting.MapSeqAppend(PairName, ps, [p]);
  }

  /** One step of the filtering loop: a position not listed is a name with
      a number, which `WithDigits` keeps. */
  lemma DropStep(channels: seq<Name>, channelBases: seq<string>, notUseNum: seq<nat>, k: nat,
                 kept: seq<Name>, keptBases: seq<string>)
    requires channelBases == Sorting.MapSeq(Base, channels)
    requires forall j :: 0 <= j < |channels| ==> (j in notUseNum <==> !HasDigits(channels[j]))
    requires k < |channels|
    requires kept == WithDigits(channels[..k]) && keptBases == Sorting.MapSeq(Base, kept)
    ensures k !in notUseNum <==> HasDigits(channels[k])
    ensures WithDigits(channels[..k + 1]) == kept + (if k !in notUseNum then [channels[k]] else [])
    ensures Sorting.MapSeq(Base, kept + [channels[k]]) == keptBases + [channelBases[k]]
  {
    WithDigitsStep(channels, k);
    Sorting.MapSeqAppend(Base, kept, [channels[k]]);
  }

  /** Every pair found among the first `n` neighbours is one of them and
      satisfies `adj`. */
  lemma {:induction false} PairsWhereSource(adj: (Name, Name) -> bool, k: seq<Name>, n: nat, p: Pair)
    returns (i: nat)
    requires n == 0 || n < |k|
    requires p in PairsWhere(adj, k, n)
    ensures i < n && p == Pair(k[i], k[i + 1]) && adj(k[i], k[i + 1])
  {
    var init := PairsWhere(adj, k, n - 1);
    var adjacent := adj(k[n - 1], k[n]);
    var last := if adjacent then [Pair(k[n - 1], k[n])] else [];
    assert PairsWhere(adj, k, n) == init + last;
    if p in init {
      i := PairsWhereSource(adj, k, n - 1, p);
    } else {
      assert p in last;
      assert adjacent && p == last[0];
      i := n - 1;
    }
  }

  /** Every neighbour pair among the first `n` that satisfies `adj` is found. */
  lemma {:induction false} PairsWhereFound(adj: (Name, Name) -> bool, k: seq<Name>, n: nat, i: nat)
    requires n < |k| && i < n && adj(k[i], k[i + 1])
    ensures Pair(k[i], k[i + 1]) in PairsWhere(adj, k, n)
  {
    var init := PairsWhere(adj, k, n - 1);
    var last := if adj(k[n - 1], k[n]) then [Pair(k[n - 1], k[n])] else [];
    assert PairsWhere(adj, k, n) == init + last;
    if i < n - 1 {
      PairsWhereFound(adj, k, n - 1, i);
      assert Pair(k[i], k[i + 1]) in init;
    } else {
      assert last == [Pair(k[i], k[i + 1])];
    }
  }

  /** `define_pairs` pairs exactly the neighbours that are adjacent contacts. */
  lemma PairsMembers(k: seq<Name>, p: Pair)
    ensures p in Pairs(k) <==>
      exists i :: 0 <= i < |k| - 1 && p == Pair(k[i], k[i + 1]) && Adjacent(k[i], k[i + 1])
  {
    var n := if |k| == 0 then 0 else |k| - 1;
    if p in Pairs(k) {
      var i := PairsWhereSource(Adjacent, k, n, p);
    }
    if exists i :: 0 <= i < |k| - 1 && p == Pair(k[i], k[i + 1]) && Adjacent(k[i], k[i + 1]) {
      var i :| 0 <= i < |k| - 1 && p == Pair(k[i], k[i + 1]) && Adjacent(k[i], k[i + 1]);
      PairsWhereFound(Adjacent, k, n, i);
    }
  }

  lemma {:induction false} PairsWhereCount(adj: (Name, Name) -> bool, k: seq<Name>, n: nat)
    requires n == 0 || n < |k|
    ensures |PairsWhere(adj, k, n)| <= n
  {
    if n > 0 {
      PairsWhereCount(adj, k, n - 1);
    }
  }

  /** At most one pair per neighbour: fewer pairs than names. */
  lemma PairsCount(k: seq<Name>)
    ensures |Pairs(k)| <= if |k| == 0 then 0 else |k| - 1
  {
    PairsWhereCount(Adjacent, k, if |k| == 0 then 0 else |k| - 1);
  }

  /** No name without a digit ends up in a pair, and both names of a pair
      are names of the input (when every input name is restorable). */
  lemma DefinePairsMembers(names: seq<Name>, p: Pair)
    requires p in Pairs(WithDigits(SortChannels(names)))
    ensures HasDigits(p.first) && HasDigits(p.second)
    ensures Base(p.first) == Base(p.second) && Number(p.second) == Number(p.first) + 1
    ensures (forall i :: 0 <= i < |names| ==> Restorable(names[i])) ==> p.first in names && p.second in names
  {
    var k := WithDigits(SortChannels(names));
    PairsMembers(k, p);
    var i :| 0 <= i < |k| - 1 && p == Pair(k[i], k[i + 1]) && Adjacent(k[i], k[i + 1]);
    WithDigitsMembers(SortChannels(names));
    assert k[i] in k && k[i + 1] in k;
    if forall i :: 0 <= i < |names| ==> Restorable(names[i]) {
      SortChannelsPermutation(names);
      assert p.first in multiset(SortChannels(names));
      assert p.second in multiset(SortChannels(names));
    }
  }

  /** The number in a bipolar name reads back as the second contact's number. */
  lemma PairNameNumber(p: Pair)
    ensures var s := NatToString(Number(p.second));
      PairName(p) == p.first + "_" + s && DigitsValue(s) == Number(p.second)
  {
    NatToStringValue(Number(p.second));
  }

  /** Contacts A1, A2, A3 of lead A and B1 of lead B give the pairs (A1, A2)
      and (A2, A3) ... */
  lemma DefinePairsExample(c: seq<Name>)
    requires c == ["A1", "A2", "A3", "B1"]
    ensures Pairs(WithDigits(SortChannels(c))) == [Pair("A1", "A2"), Pair("A2", "A3")]
  {
    ExampleAlreadySorted(c);
    ExampleAllNumbered(c);
    ExamplePairs(c);
  }

  lemma ExampleAllNumbered(c: seq<Name>)
    requires c == ["A1", "A2", "A3", "B1"]
    ensures WithDigits(c) == c
  {
    ExampleDigits();
    assert forall i :: 0 <= i < |c| ==> HasDigits(c[i]) by {
      assert c[0] == "A1" && c[1] == "A2" && c[2] == "A3" && c[3] == "B1";
    }
    WithDigitsAll(c);
  }

  /** ... named "A1_2" and "A2_3". */
  lemma DefinePairsNamesExample(ps: seq<Pair>)
    requires ps == [Pair("A1", "A2"), Pair("A2", "A3")]
    ensures Sorting.MapSeq(PairName, ps) == ["A1_2", "A2_3"]
  {
    ExampleNames();
  }

  lemma ExampleDigits()
    ensures HasDigits("A1") && HasDigits("A2") && HasDigits("A3") && HasDigits("B1")
  {
    assert Digits("A1") == "1" && Digits("A2") == "2" && Digits("A3") == "3" && Digits("B1") == "1";
  }

  lemma ExampleNames()
    ensures PairName(Pair("A1", "A2")) == "A1_2" && PairName(Pair("A2", "A3")) == "A2_3"
  {
    ExampleName12();
    ExampleName23();
  }

  lemma ExampleName12()
    ensures PairName(Pair("A1", "A2")) == "A1_2"
  {
    ExampleNumbers();
    assert NatToString(2) == "2";
  }

  lemma ExampleName23()
    ensures PairName(Pair("A2", "A3")) == "A2_3"
  {
    ExampleNumbers();
    assert NatToString(3) == "3";
  }

  lemma ExampleAlreadySorted(c: seq<Name>)
    requires c == ["A1", "A2", "A3", "B1"]
    ensures SortChannels(c) == c
  {
    var padded := ["A01", "A02", "A03", "B01"];
    ExamplePadded();
    ExamplePaddedSorted();
    Sorting.SortIsUnique(padded, padded, LexLe);
    ExampleUnpadded();
  }

  lemma ExampleUnpadded()
    ensures Sorting.MapSeq(Unpad, ["A01", "A02", "A03", "B01"]) == ["A1", "A2", "A3", "B1"]
  {
    Sorting.MapSeqFour(Unpad, "A01", "A02", "A03", "B01");
    RenamedUnpad();
    ExampleUnpadLast();
  }

  lemma ExampleUnpadLast()
    ensures Unpad("A03") == "A3" && Unpad("B01") == "B1"
  {
    assert Digits("A03") == "03" && Digits("B01") == "01";
  }

  lemma ExamplePadded()
    ensures Sorting.MapSeq(Pad, ["A1", "A2", "A3", "B1"]) == ["A01", "A02", "A03", "B01"]
  {
    Sorting.MapSeqFour(Pad, "A1", "A2", "A3", "B1");
    assert Pad("A1") == "A01" && Pad("A2") == "A02" by {
      assert Digits("A1") == "1" && Digits("A2") == "2";
      assert FirstDigit("A1") == 1 && FirstDigit("A2") == 1;
    }
    assert Pad("A3") == "A03" && Pad("B1") == "B01" by {
      assert Digits("A3") == "3" && Digits("B1") == "1";
      assert FirstDigit("A3") == 1 && FirstDigit("B1") == 1;
    }
  }

  lemma ExamplePaddedSorted()
    ensures Sorting.Total(LexLe) && Sorting.Transitive(LexLe) && Sorting.Antisymmetric(LexLe)
    ensures Sorting.SortedBy(["A01", "A02", "A03", "B01"], LexLe)
  {
    LexOrder();
    var padded := ["A01", "A02", "A03", "B01"];
    assert LexLe("A01", "A02") && LexLe("A02", "A03") && LexLe("A03", "B01");
    forall i, j | 0 <= i < j < 4 ensures LexLe(padded[i], padded[j]) {
      if j > i + 1 {
        LexLeTransitive(padded[i], padded[i + 1], padded[j]);
      }
    }
  }

  lemma ExamplePairs(c: seq<Name>)
    requires c == ["A1", "A2", "A3", "B1"]
    ensures Pairs(c) == [Pair("A1", "A2"), Pair("A2", "A3")]
  {
    ExamplePairsUpTo2(c);
    assert !Adjacent(c[2], c[3]) by {
      ExampleAdjacent();
    }
    PairsWhereStep(Adjacent, c, 3);
  }

  lemma ExamplePairsUpTo2(c: seq<Name>)
    requires c == ["A1", "A2", "A3", "B1"]
    ensures PairsUpTo(c, 2) == [Pair("A1", "A2"), Pair("A2", "A3")]
  {
    ExamplePairsUpTo1(c);
    assert Adjacent(c[1], c[2]) by {
      ExampleAdjacent();
    }
    PairsWhereStep(Adjacent, c, 2);
  }

  lemma ExamplePairsUpTo1(c: seq<Name>)
    requires c == ["A1", "A2", "A3", "B1"]
    ensures PairsUpTo(c, 1) == [Pair("A1", "A2")]
  {
    assert Adjacent(c[0], c[1]) by {
      ExampleAdjacent();
    }
    PairsWhereStep(Adjacent, c, 1);
  }

  /** One more neighbour: its pair is appended exactly when it satisfies `adj`. */
  lemma PairsWhereStep(adj: (Name, Name) -> bool, k: seq<Name>, n: nat)
    requires 0 < n < |k|
    ensures adj(k[n - 1], k[n]) ==> PairsWhere(adj, k, n) == PairsWhere(adj, k, n - 1) + [Pair(k[n - 1], k[n])]
    ensures !adj(k[n - 1], k[n]) ==> PairsWhere(adj, k, n) == PairsWhere(adj, k, n - 1)
  {
  }

  lemma ExampleAdjacent()
    ensures Adjacent("A1", "A2") && Adjacent("A2", "A3") && !Adjacent("A3", "B1")
  {
    ExampleBases();
    ExampleNumbers();
  }

  lemma ExampleBases()
    ensures Base("A1") == "A" && Base("A2") == "A" && Base("A3") == "A" && Base("B1") == "B"
  {
  }

  lemma ExampleNumbers()
    ensures Number("A1") == 1 && Number("A2") == 2 && Number("A3") == 3
  {
    assert Digits("A1") == "1" && Digits("A2") == "2" && Digits("A3") == "3";
  }

  /** `dict(zip(channels, np.arange(len(channels))))` looked up at `x`: a
      later duplicate of a name overwrites an earlier one, so the last
      position of `x` is found. */
  function LastIndex(channels: seq<Name>, x: Name): (r: Option<nat>)
    ensures r.Some? <==> x in channels
    ensures r.Some? ==>
      r.value < |channels| && channels[r.value] == x &&
      forall j :: r.value < j < |channels| ==> channels[j] != x
  {
    if |channels| == 0 then None
    else if channels[|channels| - 1] == x then Some(|channels| - 1)
    else LastIndex(channels[..|channels| - 1], x)
  }

  /** `data[:, ch_dict[x]]` for an array of `cols` columns: KeyError when
      `x` is not a channel name, IndexError when its position is not a
      column. */
  function Column(channels: seq<Name>, cols: nat, x: Name): (r: Result<nat>)
    ensures r.Ok? <==> x in channels && LastIndex(channels, x).value < cols
    ensures r.Ok? ==> r.value == LastIndex(channels, x).value && r.value < cols
    ensures r.Raise? ==> (r.exc == KeyError <==> x !in channels)
    ensures r.Raise? ==> r.exc == KeyError || r.exc == IndexError
  {
    match LastIndex(channels, x)
    case None => Raise(KeyError)
    case Some(i) => if i < cols then Ok(i) else Raise(IndexError)
  }

  /** The two columns every pair subtracts, pair by pair in order; the first
      failing lookup decides the exception. */
  function Columns(channels: seq<Name>, cols: nat, ps: seq<Pair>): (r: Result<seq<(nat, nat)>>)
    ensures r.Ok? ==>
      |r.value| == |ps| &&
      forall i :: 0 <= i < |ps| ==>
        r.value[i].0 < cols && r.value[i].1 < cols &&
        r.value[i].0 < |channels| && r.value[i].1 < |channels| &&
        channels[r.value[i].0] == ps[i].first && channels[r.value[i].1] == ps[i].second
  {
    if |ps| == 0 then Ok([])
    else
      var init :- Columns(channels, cols, ps[..|ps| - 1]);
      var a :- Column(channels, cols, ps[|ps| - 1].first);
      var b :- Column(channels, cols, ps[|ps| - 1].second);
      Ok(init + [(a, b)])
  }

  /** Every lookup succeeds when every name of every pair is a channel name
      and there are at least as many columns as names. */
  lemma {:induction false} ColumnsSucceed(channels: seq<Name>, cols: nat, ps: seq<Pair>)
    requires |channels| <= cols
    requires forall i :: 0 <= i < |ps| ==> ps[i].first in channels && ps[i].second in channels
    ensures Columns(channels, cols, ps).Ok?
  {
    if |ps| > 0 {
      ColumnsSucceed(channels, cols, ps[..|ps| - 1]);
    }
  }

  /** Once a prefix of the pairs fails, the whole list fails the same way. */
  lemma {:induction false} ColumnsPrefixFails(channels: seq<Name>, cols: nat, ps: seq<Pair>, n: nat)
    requires n <= |ps| && Columns(channels, cols, ps[..n]).Raise?
    ensures Columns(channels, cols, ps) == Columns(channels, cols, ps[..n])
    decreases |ps| - n
  {
    if n < |ps| {
      assert ps[..n + 1][..n] == ps[..n];
      ColumnsPrefixFails(channels, cols, ps, n + 1);
    } else {
      assert ps[..n] == ps;
    }
  }

  datatype Montage = Montage(biData: array2<real>, names: seq<Name>)

  /** `bipolar_montage(data, channels)`, utils.py:80-100: `data` has one row
      per sample and one column per channel. The count of names is not
      checked against the count of columns (the `assert` of a non-empty
      string always passes). */
  method BipolarMontage(data: array2<real>, channels: seq<Name>) returns (r: Result<Montage>)
    ensures var ps := Pairs(WithDigits(SortChannels(channels)));
      var cs := Columns(channels, data.Length1, ps);
      (r.Ok? <==> cs.Ok?) && (r.Raise? ==> r.exc == cs.exc) &&
      (r.Ok? ==>
        fresh(r.value.biData) &&
        r.value.biData.Length0 == data.Length0 && r.value.biData.Length1 == |ps| &&
        r.value.names == Sorting.MapSeq(PairName, ps) &&
        forall t, i :: 0 <= t < data.Length0 && 0 <= i < |ps| ==>
          r.value.biData[t, i] == data[t, cs.value[i].0] - data[t, cs.value[i].1])
  {
    var pairs, names := DefinePairs(channels);
    var biData := new real[data.Length0, |pairs|]((_, _) => 0.0);
    ghost var cols: seq<(nat, nat)> := [];
    for i := 0 to |pairs|
      invariant Columns(channels, data.Length1, pairs[..i]) == Ok(cols)
      invariant forall t, j :: 0 <= t < data.Length0 && 0 <= j < i ==>
        biData[t, j] == data[t, cols[j].0] - data[t, cols[j].1]
    {
      ColumnsStep(channels, data.Length1, pairs, i);
      var idx0 := Column(channels, data.Length1, pairs[i].first);
      if idx0.Raise? {
        ColumnsPrefixFails(channels, data.Length1, pairs, i + 1);
        return Raise(idx0.exc);
      }
      var idx1 := Column(channels, data.Length1, pairs[i].second);
      if idx1.Raise? {
        ColumnsPrefixFails(channels, data.Length1, pairs, i + 1);
        return Raise(idx1.exc);
      }
      SubtractColumns(data, biData, i, idx0.value, idx1.value);
      cols := cols + [(idx0.value, idx1.value)];
    }
    assert pairs[..|pairs|] == pairs;
    return Ok(Montage(biData, names));
  }

  /** `bi_data[:, i] = data[:, a] - data[:, b]`. */
  method SubtractColumns(data: array2<real>, biData: array2<real>, i: nat, a: nat, b: nat)
    requires biData != data
    requires biData.Length0 == data.Length0 && i < biData.Length1
    requires a < data.Length1 && b < data.Length1
    modifies biData
    ensures forall t :: 0 <= t < data.Length0 ==> biData[t, i] == data[t, a] - data[t, b]
    ensures forall t, j :: 0 <= t < biData.Length0 && 0 <= j < biData.Length1 && j != i ==>
      biData[t, j] == old(biData[t, j])
  {
    for t := 0 to data.Length0
      invariant forall u :: 0 <= u < t ==> biData[u, i] == data[u, a] - data[u, b]
      invariant forall u, j :: 0 <= u < biData.Length0 && 0 <= j < biData.Length1 && j != i ==>
        biData[u, j] == old(biData[u, j])
    {
      biData[t, i] := data[t, a] - data[t, b];
    }
  }

  /** One more pair: its two lookups, in order, extend the columns or
      decide the exception. */
  lemma ColumnsStep(channels: seq<Name>, cols: nat, ps: seq<Pair>, i: nat)
    requires i < |ps| && Columns(channels, cols, ps[..i]).Ok?
    ensures var a := Column(channels, cols, ps[i].first);
      var b := Column(channels, cols, ps[i].second);
      Columns(channels, cols, ps[..i + 1]) ==
        if a.Raise? then Raise(a.exc)
        else if b.Raise? then Raise(b.exc)
        else Ok(Columns(channels, cols, ps[..i]).value + [(a.value, b.value)])
  {
    assert ps[..i + 1][..i] == ps[..i];
  }

  /** When every name is restorable and there is a column per name, the
      montage is built without an exception. */
  lemma BipolarMontageSucceeds(channels: seq<Name>, cols: nat)
    requires forall i :: 0 <= i < |channels| ==> Restorable(channels[i])
    requires |channels| <= cols
    ensures Columns(channels, cols, Pairs(WithDigits(SortChannels(channels)))).Ok?
  {
    var ps := Pairs(WithDigits(SortChannels(channels)));
    forall i | 0 <= i < |ps| ensures ps[i].first in channels && ps[i].second in channels {
      DefinePairsMembers(channels, ps[i]);
    }
    ColumnsSucceed(channels, cols, ps);
  }

  /** "A01" and "A02" are paired as "A1" and "A2", names the dictionary of
      channel positions does not hold: the lookup raises KeyError. */
  lemma BipolarMontageRenamedKeyError(c: seq<Name>)
    requires c == ["A01", "A02"]
    ensures Pairs(WithDigits(SortChannels(c))) == [Pair("A1", "A2")]
    ensures Columns(c, 2, [Pair("A1", "A2")]) == Raise(KeyError)
  {
    RenamedSorted(c);
    RenamedPairs(["A1", "A2"]);
    RenamedMissing(c);
  }

  lemma RenamedPairs(k: seq<Name>)
    requires k == ["A1", "A2"]
    ensures Pairs(WithDigits(k)) == [Pair("A1", "A2")]
  {
    RenamedNumbered(k);
    RenamedAdjacent();
    assert Adjacent(k[0], k[1]);
    assert PairsUpTo(k, 1) == PairsUpTo(k, 0) + [Pair("A1", "A2")];
  }

  lemma RenamedNumbered(k: seq<Name>)
    requires k == ["A1", "A2"]
    ensures WithDigits(k) == k
  {
    assert Digits("A1") == "1" && Digits("A2") == "2";
    assert HasDigits(k[0]) && HasDigits(k[1]);
    WithDigitsAll(k);
  }

  lemma RenamedAdjacent()
    ensures Adjacent("A1", "A2")
  {
    ExampleBases();
    ExampleNumbers();
  }

  lemma RenamedMissing(c: seq<Name>)
    requires c == ["A01", "A02"]
    ensures Columns(c, 2, [Pair("A1", "A2")]) == Raise(KeyError)
  {
    assert "A1" != c[0] && "A1" != c[1];
    assert [Pair("A1", "A2")][..0] == [];
  }

  lemma RenamedSorted(c: seq<Name>)
    requires c == ["A01", "A02"]
    ensures SortChannels(c) == ["A1", "A2"]
  {
    RenamedPad();
    Sorting.MapSeqTwo(Pad, "A01", "A02");
    RenamedOrder(c);
    RenamedUnpad();
    Sorting.MapSeqTwo(Unpad, "A01", "A02");
  }

  lemma RenamedPad()
    ensures Pad("A01") == "A01" && Pad("A02") == "A02"
  {
    assert Digits("A01") == "01" && Digits("A02") == "02";
  }

  lemma RenamedUnpad()
    ensures Unpad("A01") == "A1" && Unpad("A02") == "A2"
  {
    assert Digits("A01") == "01" && Digits("A02") == "02";
  }

  lemma RenamedOrder(c: seq<Name>)
    requires c == ["A01", "A02"]
    ensures Sorting.Sort(c, LexLe) == c
  {
    LexOrder();
    assert LexLe("A01", "A02");
    assert Sorting.SortedBy(c, LexLe);
    Sorting.SortIsUnique(c, c, LexLe);
  }
}
