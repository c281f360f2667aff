/** A reader for the words the converter prints, used as its inverse: it
    splits a sentence at its spaces and evaluates the words left to right,
    keeping a running total of completed groups and the value of the group
    being read. Reading back the words of every amount below one trillion
    gives the amount itself, so no two such amounts share their words. */
module WordsReader {
  import opened Wrappers
  import opened NumberWords

  /** The words of `s`: the runs of characters between single spaces. A
      character other than a space extends the first word of the rest. */
  function Split(s: string): (ws: seq<string>)
    ensures |ws| > 0
  {
    if s == [] then [""] else
      var rest := Split(s[1..]);
      if s[0] == ' ' then [""] + rest else [[s[0]] + rest[0]] + rest[1..]
  }

  /** Splitting two texts joined by one space splits each of them. */
  lemma {:induction false} SplitJoin(a: string, b: string)
    ensures Split(a + " " + b) == Split(a) + Split(b)
    decreases |a|
  {
    var s := a + " " + b;
    if a == [] {
      assert s[1..] == b;
    } else {
      assert s[1..] == a[1..] + " " + b;
      SplitJoin(a[1..], b);
    }
  }

  /** What a single word means to the reader. */
  datatype Token =
    | Small(value: nat)    // a unit, teen or tens word
    | HundredWord          // "Hundred"
    | GroupWord(base: nat) // "Thousand", "Million" or "Billion"
    | Unknown

  /** The reader's vocabulary, written out on its own, independently of the
      converter's tables. */
  function Classify(w: string): Token {
    match w
    case "One" => Small(1)
    case "Two" => Small(2)
    case "Three" => Small(3)
    case "Four" => Small(4)
    case "Five" => Small(5)
    case "Six" => Small(6)
    case "Seven" => Small(7)
    case "Eight" => Small(8)
    case "Nine" => Small(9)
    case "Ten" => Small(10)
    case "Eleven" => Small(11)
    case "Twelve" => Small(12)
    case "Thirteen" => Small(13)
    case "Fourteen" => Small(14)
    case "Fifteen" => Small(15)
    case "Sixteen" => Small(16)
    case "Seventeen" => Small(17)
    case "Eighteen" => Small(18)
    case "Nineteen" => Small(19)
    case "Twenty" => Small(20)
    case "Thirty" => Small(30)
    case "Forty" => Small(40)
    case "Fifty" => Small(50)
    case "Sixty" => Small(60)
    case "Seventy" => Small(70)
    case "Eighty" => Small(80)
    case "Ninety" => Small(90)
    case "Hundred" => HundredWord
    case "Thousand" => GroupWord(1000)
    case "Million" => GroupWord(1_000_000)
    case "Billion" => GroupWord(1_000_000_000)
    case _ => Unknown
  }

  /** The meaning of each word of a sentence. */
  function Tokens(ws: seq<string>): (ts: seq<Token>)
    ensures |ts| == |ws|
    ensures forall i :: 0 <= i < |ws| ==> ts[i] == Classify(ws[i])
  {
    seq(|ws|, i requires 0 <= i < |ws| => Classify(ws[i]))
  }

  /** The running state of the reader: the sum of the completed Thousand,
      Million and Billion groups, and the value of the group being read. */
  datatype Tally = Tally(total: nat, current: nat)

  /** Reads one word: a word below a hundred adds to the group being read,
      "Hundred" multiplies it, a larger scale word closes it into the total;
      an unknown word fails. */
  function Step(t: Tally, tok: Token): Option<Tally> {
    match tok
    case Small(v) => Some(Tally(t.total, t.current + v))
    case HundredWord => Some(Tally(t.total, t.current * 100))
    case GroupWord(k) => Some(Tally(t.total + t.current * k, 0))
    case Unknown => None
  }

  /** Reads the words left to right; an unknown word fails the whole read. */
  function Read(ts: seq<Token>, t: Tally): Option<Tally>
    decreases |ts|
  {
    if ts == [] then Some(t) else
      match Step(t, ts[0])
      case None => None
      case Some(t') => Read(ts[1..], t')
  }

  /** The amount a sentence of words names, if it names one. */
  function WordsToNumber(s: string): Option<nat> {
    if s == "Zero" then Some(0) else
      match Read(Tokens(Split(s)), Tally(0, 0))
      case Some(t) => Some(t.total + t.current)
      case None => None
  }

  /** The words of a concatenation mean the words of each part. */
  lemma {:induction false} TokensAppend(a: seq<string>, b: seq<string>)
    ensures Tokens(a + b) == Tokens(a) + Tokens(b)
  {
    assert forall i :: 0 <= i < |a| ==> (a + b)[i] == a[i];
    assert forall i :: |a| <= i < |a + b| ==> (a + b)[i] == b[i - |a|];
  }

  /** Reading a concatenation reads the first part, then the second. */
  lemma {:induction false} ReadAppend(a: seq<Token>, b: seq<Token>, t: Tally)
    ensures Read(a + b, t) == match Read(a, t) case None => None case Some(t') => Read(b, t')
    decreases |a|
  {
    if a == [] {
      assert a + b == b;
    } else {
      assert (a + b)[0] == a[0] && (a + b)[1..] == a[1..] + b;
      match Step(t, a[0])
      case None =>
      case Some(t') => ReadAppend(a[1..], b, t');
    }
  }

  /** Each word below twenty means its own value. */
  lemma {:induction false} ClassifyBelowTwenty(k: nat)
    requires 0 < k < 20
    ensures Classify(BelowTwenty[k]) == Small(k)
  {
  }

  /** Each tens word means its own value. */
  lemma {:induction false} ClassifyTens(k: nat)
    requires 2 <= k < 10
    ensures Classify(Tens[k]) == Small(10 * k)
  {
  }

  /** A word without spaces splits into itself. */
  lemma {:induction false} SplitWord(w: string)
    requires ' ' !in w
    ensures Split(w) == [w]
    decreases |w|
  {
    if w != [] {
      assert ' ' !in w[1..] by { assert forall k :: 0 <= k < |w| - 1 ==> w[1..][k] == w[k + 1]; }
      SplitWord(w[1..]);
      assert w == [w[0]] + w[1..];
    }
  }

  /** Splitting words joined by single spaces gives the words back. */
  lemma {:induction false} SplitJoinWords(ws: seq<string>)
    requires ws != [] && AllWords(ws)
    ensures Split(Join(ws)) == ws
    decreases |ws|
  {
    assert IsWord(ws[0]);
    SplitWord(ws[0]);
    if |ws| > 1 {
      assert forall i :: 0 <= i < |ws| - 1 ==> ws[1..][i] == ws[i + 1];
      SplitJoinWords(ws[1..]);
      SplitJoin(ws[0], Join(ws[1..]));
    }
  }

  /** What the words of a positive amount should mean to the reader, group
      by group: the tokens it is spelled with, defined on the amount itself. */
  function Meaning(n: nat): (ts: seq<Token>)
    requires n > 0
    ensures |ts| > 0
    decreases n, 1
  {
    if n < 1000 then GroupMeaning(n) else ScaledMeaning(n)
  }

  /** The tokens of an amount below a thousand: a unit or teen, a tens word
      and an optional unit, or a digit, "Hundred" and the remainder's tokens. */
  function GroupMeaning(n: nat): (ts: seq<Token>)
    requires 0 < n < 1000
    ensures |ts| > 0
    decreases n, 0
  {
    if n < 20 then [Small(n)]
    else if n < 100 then [Small(10 * (n / 10))] + (if n % 10 != 0 then [Small(n % 10)] else [])
    else [Small(n / 100), HundredWord] + (if n % 100 != 0 then Meaning(n % 100) else [])
  }

  /** The tokens of an amount from a thousand up: the quotient's tokens, the
      group word, then the remainder's tokens. */
  function ScaledMeaning(n: nat): (ts: seq<Token>)
    requires n >= 1000
    ensures |ts| > 0
    decreases n, 0
  {
    if n < 1_000_000 then
      Meaning(n / 1000) + [GroupWord(1000)] + (if n % 1000 != 0 then Meaning(n % 1000) else [])
    else if n < 1_000_000_000 then
      Meaning(n / 1_000_000) + [GroupWord(1_000_000)] + (if n % 1_000_000 != 0 then Meaning(n % 1_000_000) else [])
    else
      Meaning(n / 1_000_000_000) + [GroupWord(1_000_000_000)] + (if n % 1_000_000_000 != 0 then Meaning(n % 1_000_000_000) else [])
  }

  /** Below a hundred, the words add the amount to the group being read. */
  lemma {:induction false} ReadBelowHundred(n: nat, t: Tally)
    requires 0 < n < 100
    ensures Read(Meaning(n), t) == Some(Tally(t.total, t.current + n))
  {
    if n < 20 {
      assert Meaning(n) == [Small(n)];
    } else if n % 10 == 0 {
      assert Meaning(n) == [Small(n)];
    } else {
      var q, r := n / 10, n % 10;
      assert Meaning(n) == [Small(10 * q)] + [Small(r)];
      ReadAppend([Small(10 * q)], [Small(r)], t);
    }
  }

  /** The tokens of a run of words, a scale word and another run. */
  lemma {:induction false} TokensOfParts(a: seq<string>, name: string, b: seq<string>)
    ensures Tokens(a + [name] + b) == Tokens(a) + [Classify(name)] + Tokens(b)
  {
    TokensAppend(a + [name], b);
    TokensAppend(a, [name]);
  }

  /** The meaning of the scale words. */
  lemma ClassifyScaleWords()
    ensures Classify("Hundred") == HundredWord
    ensures Classify("Thousand") == GroupWord(1000)
    ensures Classify("Million") == GroupWord(1_000_000)
    ensures Classify("Billion") == GroupWord(1_000_000_000)
  {
  }

  /** A digit followed by "Hundred" gives a hundred times the digit. */
  lemma {:induction false} ReadHundreds(d: nat, t: Tally)
    requires t.current == 0
    ensures Read([Small(d), HundredWord], t) == Some(Tally(t.total, 100 * d))
  {
    assert [Small(d), HundredWord][1..] == [HundredWord];
    assert [HundredWord][1..] == [];
  }

  /** Reading two runs of words one after the other. */
  lemma {:induction false} ReadThen(a: seq<Token>, b: seq<Token>, t: Tally, mid: Tally, last: Tally)
    requires Read(a, t) == Some(mid) && Read(b, mid) == Some(last)
    ensures Read(a + b, t) == Some(last)
  {
    ReadAppend(a, b, t);
  }

  /** Below a thousand, read from the start of a group, the words give the
      amount as the group's value. */
  lemma {:induction false} ReadBelowThousand(n: nat, t: Tally)
    requires 0 < n < 1000 && t.current == 0
    ensures Read(Meaning(n), t) == Some(Tally(t.total, n))
  {
    if n < 100 {
      ReadBelowHundred(n, t);
    } else {
      var d, r := n / 100, n % 100;
      var rest := if r != 0 then Meaning(r) else [];
      assert Meaning(n) == [Small(d), HundredWord] + rest;
      ReadHundreds(d, t);
      if r != 0 {
        ReadBelowHundred(r, Tally(t.total, 100 * d));
      }
      ReadThen([Small(d), HundredWord], rest, t, Tally(t.total, 100 * d), Tally(t.total, n));
    }
  }

  /** `n` is `x` thousands and `b` units exactly when `b` is its last three digits. */
  lemma {:induction false} LastDigits(n: nat, x: nat, b: nat)
    requires n == x * 1000 + b && b < 1000
    ensures n % 1000 == b
  {
  }

  /** A remainder by a Million or a Billion keeps the last three digits. */
  lemma {:induction false} RemainderKeepsLastDigits(n: nat, k: nat)
    requires k == 1_000_000 || k == 1_000_000_000
    ensures n % k % 1000 == n % 1000
  {
    var q, r := n / k, n % k;
    var a, b := r / 1000, r % 1000;
    if k == 1_000_000 {
      assert n == (q * 1000 + a) * 1000 + b;
      LastDigits(n, q * 1000 + a, b);
    } else {
      assert n == (q * 1000000 + a) * 1000 + b;
      LastDigits(n, q * 1000000 + a, b);
    }
  }

  /** The words of a group worth q, its scale word k, then the words of a
      remainder r that leave `low` as the group being read. The scale word
      closes the group into the total, giving `mid`. */
  lemma {:induction false} ReadGroupParts(head: seq<Token>, rest: seq<Token>, t: Tally, mid: Tally, q: nat, k: nat, r: nat, low: nat)
    requires t.current == 0 && mid.total == t.total + q * k && mid.current == 0 && low <= r
    requires Read(head, t) == Some(Tally(t.total, q))
    requires r != 0 ==> Read(rest, mid) == Some(Tally(mid.total + r - low, low))
    requires r == 0 ==> rest == [] && low == 0
    ensures Read(head + [GroupWord(k)] + rest, t) == Some(Tally(t.total + q * k + r - low, low))
  {
    ReadAppend(head, [GroupWord(k)], t);
    assert Read([GroupWord(k)], Tally(t.total, q)) == Some(mid);
    ReadAppend(head + [GroupWord(k)], rest, t);
  }

  /** From a thousand up, the tokens of an amount are those of the quotient
      by its group's base, the group word, then those of a non-zero
      remainder. */
  lemma {:induction false} MeaningGroup(n: nat)
    requires n >= 1000
    ensures Meaning(n) == Meaning(n / ScaleBase(n)) + [GroupWord(ScaleBase(n))] +
      (if n % ScaleBase(n) != 0 then Meaning(n % ScaleBase(n)) else [])
  {
    var ts := ScaledMeaning(n);
    assert Meaning(n) == ts;
    if n < 1_000_000 {
      assert ts == Meaning(n / 1000) + [GroupWord(1000)] + (if n % 1000 != 0 then Meaning(n % 1000) else []);
    } else if n < 1_000_000_000 {
      assert ts == Meaning(n / 1_000_000) + [GroupWord(1_000_000)] + (if n % 1_000_000 != 0 then Meaning(n % 1_000_000) else []);
    } else {
      assert ts == Meaning(n / 1_000_000_000) + [GroupWord(1_000_000_000)] + (if n % 1_000_000_000 != 0 then Meaning(n % 1_000_000_000) else []);
    }
  }

  /** The reader understands the converter's words for every positive
      amount as that amount's tokens. */
  lemma {:induction false} TokensOfWords(n: nat)
    requires n > 0
    ensures Tokens(WordList(n)) == Meaning(n)
    decreases n
  {
    if n < 20 {
      ClassifyBelowTwenty(n);
    } else if n < 100 {
      var q, r := n / 10, n % 10;
      ClassifyTens(q);
      if r != 0 {
        ClassifyBelowTwenty(r);
        TokensAppend([Tens[q]], [BelowTwenty[r]]);
      }
    } else {
      var k := ScaleBase(n);
      TokensOfWords(n / k);
      if n % k != 0 {
        TokensOfWords(n % k);
      }
      TokensOfGroup(n);
    }
  }

  /** One group step of `TokensOfWords`: from 100 up, the words mean the
      amount's tokens once the quotient's and the remainder's words do. */
  lemma {:induction false} TokensOfGroup(n: nat)
    requires n >= 100
    requires Tokens(WordList(n / ScaleBase(n))) == Meaning(n / ScaleBase(n))
    requires n % ScaleBase(n) != 0 ==> Tokens(WordList(n % ScaleBase(n))) == Meaning(n % ScaleBase(n))
    ensures Tokens(WordList(n)) == Meaning(n)
  {
    var k := ScaleBase(n);
    var q, r := n / k, n % k;
    var rest := if r != 0 then WordList(r) else [];
    WordListGroup(n);
    TokensOfParts(WordList(q), ScaleName(n), rest);
    ClassifyScaleWords();
    if n < 1000 {
      ClassifyBelowTwenty(q);
      assert Meaning(n) == [Small(q), HundredWord] + (if r != 0 then Meaning(r) else []);
    } else {
      MeaningGroup(n);
    }
  }

  /** Below a thousand, the words leave the whole amount as the group being
      read, with nothing added to the total. */
  lemma {:induction false} ReadLastGroup(n: nat, t: Tally)
    requires 0 < n < 1000 && t.current == 0
    ensures Read(Meaning(n), t) == Some(Tally(t.total + n - n % 1000, n % 1000))
  {
    ReadBelowThousand(n, t);
    assert n % 1000 == n;
  }

  /** Below a million, read from the start of a group, the words add the
      thousands to the total and leave the last three digits as the group
      being read. */
  lemma {:induction false} ReadBelowMillion(n: nat, t: Tally)
    requires 0 < n < 1_000_000 && t.current == 0
    ensures Read(Meaning(n), t) == Some(Tally(t.total + n - n % 1000, n % 1000))
  {
    if n < 1000 {
      ReadLastGroup(n, t);
    } else {
      ReadThousands(n, t);
    }
  }

  /** From a thousand to a million: the thousands, "Thousand", then the
      last group. */
  lemma {:induction false} ReadThousands(n: nat, t: Tally)
    requires 1000 <= n < 1_000_000 && t.current == 0
    ensures Read(Meaning(n), t) == Some(Tally(t.total + n - n % 1000, n % 1000))
  {
    var q, r := n / 1000, n % 1000;
    assert ScaleBase(n) == 1000;
    MeaningGroup(n);
    ReadThousandsParts(q, r, t, Tally(t.total + q * 1000, 0));
    LastDigits(r, 0, r);
  }

  /** The words of q, "Thousand", then those of a remainder r below a thousand
      when it is not zero, read from the start of a group. */
  lemma {:induction false} ReadThousandsParts(q: nat, r: nat, t: Tally, mid: Tally)
    requires 0 < q < 1000 && r < 1000 && t.current == 0
    requires mid.total == t.total + q * 1000 && mid.current == 0
    ensures Read(Meaning(q) + [GroupWord(1000)] + (if r != 0 then Meaning(r) else []), t) ==
      Some(Tally(t.total + q * 1000 + r - r % 1000, r % 1000))
  {
    var rest := if r != 0 then Meaning(r) else [];
    assert Read(Meaning(q), t) == Some(Tally(t.total, q)) by {
      ReadBelowThousand(q, t);
    }
    assert r != 0 ==> Read(rest, mid) == Some(Tally(mid.total + r - r % 1000, r % 1000)) by {
      if r != 0 {
        ReadLastGroup(r, mid);
      }
    }
    ReadGroupParts(Meaning(q), rest, t, mid, q, 1000, r, r % 1000);
  }

  /** Below a billion, the words add every group above the last to the
      total and leave the last three digits as the group being read. */
  lemma {:induction false} ReadBelowBillion(n: nat, t: Tally)
    requires 0 < n < 1_000_000_000 && t.current == 0
    ensures Read(Meaning(n), t) == Some(Tally(t.total + n - n % 1000, n % 1000))
  {
    if n < 1_000_000 {
      ReadBelowMillion(n, t);
    } else {
      ReadMillions(n, t);
    }
  }

  /** From a million to a billion: the millions, "Million", then the words
      of the remainder below a million. */
  lemma {:induction false} ReadMillions(n: nat, t: Tally)
    requires 1_000_000 <= n < 1_000_000_000 && t.current == 0
    ensures Read(Meaning(n), t) == Some(Tally(t.total + n - n % 1000, n % 1000))
  {
    var q, r := n / 1_000_000, n % 1_000_000;
    assert ScaleBase(n) == 1_000_000;
    MeaningGroup(n);
    ReadMillionsParts(q, r, t, Tally(t.total + q * 1_000_000, 0));
    RemainderKeepsLastDigits(n, 1_000_000);
  }

  /** The words of q, "Million", then those of a remainder r below a million
      when it is not zero, read from the start of a group. */
  lemma {:induction false} ReadMillionsParts(q: nat, r: nat, t: Tally, mid: Tally)
    requires 0 < q < 1000 && r < 1_000_000 && t.current == 0
    requires mid.total == t.total + q * 1_000_000 && mid.current == 0
    ensures Read(Meaning(q) + [GroupWord(1_000_000)] + (if r != 0 then Meaning(r) else []), t) ==
      Some(Tally(t.total + q * 1_000_000 + r - r % 1000, r % 1000))
  {
    var rest := if r != 0 then Meaning(r) else [];
    assert Read(Meaning(q), t) == Some(Tally(t.total, q)) by {
      ReadBelowThousand(q, t);
    }
    assert r != 0 ==> Read(rest, mid) == Some(Tally(mid.total + r - r % 1000, r % 1000)) by {
      if r != 0 {
        ReadBelowMillion(r, mid);
      }
    }
    ReadGroupParts(Meaning(q), rest, t, mid, q, 1_000_000, r, r % 1000);
  }

  /** Below one trillion, the words add every group above the last to the
      total and leave the last three digits as the group being read. */
  lemma {:induction false} ReadBelowTrillion(n: nat, t: Tally)
    requires 0 < n < 1_000_000_000_000 && t.current == 0
    ensures Read(Meaning(n), t) == Some(Tally(t.total + n - n % 1000, n % 1000))
  {
    if n < 1_000_000_000 {
      ReadBelowBillion(n, t);
    } else {
      ReadBillions(n, t);
    }
  }

  /** From a billion to a trillion: the billions, "Billion", then the words
      of the remainder below a billion. */
  lemma {:induction false} ReadBillions(n: nat, t: Tally)
    requires 1_000_000_000 <= n < 1_000_000_000_000 && t.current == 0
    ensures Read(Meaning(n), t) == Some(Tally(t.total + n - n % 1000, n % 1000))
  {
    var q, r := n / 1_000_000_000, n % 1_000_000_000;
    assert ScaleBase(n) == 1_000_000_000;
    MeaningGroup(n);
    ReadBillionsParts(q, r, t, Tally(t.total + q * 1_000_000_000, 0));
    RemainderKeepsLastDigits(n, 1_000_000_000);
  }

  /** The words of q, "Billion", then those of a remainder r below a billion
      when it is not zero, read from the start of a group. */
  lemma {:induction false} ReadBillionsParts(q: nat, r: nat, t: Tally, mid: Tally)
    requires 0 < q < 1000 && r < 1_000_000_000 && t.current == 0
    requires mid.total == t.total + q * 1_000_000_000 && mid.current == 0
    ensures Read(Meaning(q) + [GroupWord(1_000_000_000)] + (if r != 0 then Meaning(r) else []), t) ==
      Some(Tally(t.total + q * 1_000_000_000 + r - r % 1000, r % 1000))
  {
    var rest := if r != 0 then Meaning(r) else [];
    assert Read(Meaning(q), t) == Some(Tally(t.total, q)) by {
      ReadBelowThousand(q, t);
    }
    assert r != 0 ==> Read(rest, mid) == Some(Tally(mid.total + r - r % 1000, r % 1000)) by {
      if r != 0 {
        ReadBelowBillion(r, mid);
      }
    }
    ReadGroupParts(Meaning(q), rest, t, mid, q, 1_000_000_000, r, r % 1000);
  }

  /** Reading back the words of any amount below one trillion gives the
      amount. */
  lemma {:induction false} RoundTrip(n: nat)
    requires n < 1_000_000_000_000
    ensures WordsToNumber(NumberToWords(n)) == Some(n)
  {
    if n > 0 {
      var s := NumberToWords(n);
      assert s == Join(WordList(n)) by {
        ConvertIsJoin(n);
      }
      assert Tokens(Split(s)) == Meaning(n) by {
        WordListWords(n);
        SplitJoinWords(WordList(n));
        TokensOfWords(n);
      }
      ReadBelowTrillion(n, Tally(0, 0));
    }
  }

  /** Split at its spaces, the converter's text is its word list. */
  lemma {:induction false} SplitConvert(n: nat)
    requires n > 0
    ensures Split(ConvertToWords(n)) == WordList(n)
  {
    ConvertIsJoin(n);
    WordListWords(n);
    SplitJoinWords(WordList(n));
  }

  /** Read off the printed words of an amount below one trillion, the group
      scale words are "Billion", "Million" and "Thousand", each when its group
      is not zero, in that order: each appears at most once, from the largest
      group down. */
  lemma {:induction false} PrintedGroupWords(n: nat)
    requires 0 < n < 1_000_000_000_000
    ensures GroupWords(Split(NumberToWords(n))) ==
      (if n >= 1_000_000_000 then ["Billion"] else []) +
      (if n % 1_000_000_000 >= 1_000_000 then ["Million"] else []) +
      (if n % 1_000_000 >= 1000 then ["Thousand"] else [])
    ensures var g := GroupWords(Split(NumberToWords(n)));
      forall i, j :: 0 <= i < j < |g| ==> GroupRank(g[i]) > GroupRank(g[j])
  {
    SplitConvert(n);
    GroupWordsBelowTrillion(n);
    GroupWordsDescend(n);
  }

  /** From one trillion up the round trip fails: the reader takes the stacked
      scale words of 10^12, "One Thousand Billion", for 1000. */
  lemma StackedScaleWordsMisread()
    ensures WordsToNumber(NumberToWords(1_000_000_000_000)) == Some(1000)
  {
    var n := 1_000_000_000_000;
    var ts := [Small(1), GroupWord(1000), GroupWord(1_000_000_000)];
    assert Tokens(Split(NumberToWords(n))) == Meaning(n) by {
      SplitConvert(n);
      TokensOfWords(n);
    }
    assert Meaning(n) == ts by {
      MeaningGroup(n);
      MeaningGroup(1000);
      assert Meaning(1) == [Small(1)];
    }
    assert Read(ts, Tally(0, 0)) == Some(Tally(1000, 0)) by {
      assert ts[1..] == [GroupWord(1000), GroupWord(1_000_000_000)];
      assert ts[1..][1..] == [GroupWord(1_000_000_000)];
    }
  }

  /** From one trillion up to 10^21 the round trip fails for every amount:
      the words of the Billion group's quotient q close their own groups, so
      the reader takes (q - q % 1000) * (10^9 - 1) less than the amount. */
  lemma {:induction false} RoundTripFailsPastTrillion(n: nat)
    requires 1_000_000_000_000 <= n < 1_000_000_000_000_000_000_000
    ensures WordsToNumber(NumberToWords(n)) ==
      Some(n - (n / 1_000_000_000 - n / 1_000_000_000 % 1000) * 999_999_999)
    ensures WordsToNumber(NumberToWords(n)) != Some(n)
  {
    var q, r := n / 1_000_000_000, n % 1_000_000_000;
    var low := q % 1000;
    var rest := if r != 0 then Meaning(r) else [];
    var before := Tally(q - low, low);
    var mid := Tally(q - low + low * 1_000_000_000, 0);
    assert Tokens(Split(NumberToWords(n))) == Meaning(q) + [GroupWord(1_000_000_000)] + rest by {
      SplitConvert(n);
      TokensOfWords(n);
      assert ScaleBase(n) == 1_000_000_000;
      MeaningGroup(n);
    }
    assert Read(Meaning(q) + [GroupWord(1_000_000_000)], Tally(0, 0)) == Some(mid) by {
      ReadBelowTrillion(q, Tally(0, 0));
      ReadAppend(Meaning(q), [GroupWord(1_000_000_000)], Tally(0, 0));
      assert Read([GroupWord(1_000_000_000)], before) == Some(mid);
    }
    assert Read(rest, mid) == Some(Tally(mid.total + r - r % 1000, r % 1000)) by {
      if r != 0 {
        ReadBelowBillion(r, mid);
      }
    }
    ReadAppend(Meaning(q) + [GroupWord(1_000_000_000)], rest, Tally(0, 0));
    assert mid.total + r == n - (q - low) * 999_999_999 by {
      assert n == q * 1_000_000_000 + r;
    }
    assert (q - low) * 999_999_999 > 0 by {
      assert q - low == q / 1000 * 1000;
    }
  }

  /** No two amounts below one trillion are written with the same words. */
  lemma {:induction false} WordsDistinguishAmounts(m: nat, n: nat)
    requires m < 1_000_000_000_000 && n < 1_000_000_000_000
    requires NumberToWords(m) == NumberToWords(n)
    ensures m == n
  {
    RoundTrip(m);
    RoundTrip(n);
  }
}
