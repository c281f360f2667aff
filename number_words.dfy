/** English cardinal words for a non-negative whole amount, as the invoice
    generator prints them under its totals ("One Thousand Two Hundred Fifty").

    `ConvertToWords` follows the inner recursive helper branch for branch:
    irregular words below twenty, tens words below a hundred, then the
    Hundred, Thousand, Million and Billion groups, each of which adds its
    remainder clause only when the remainder is not zero. `NumberToWords`
    adds the single top-level special case for zero. */
module NumberWords {

  /** Words for 0..19; index 0 is the empty word, never printed on its own
      by the recursive path for a positive amount. */
  const BelowTwenty: seq<string> := ["", "One", "Two", "Three", "Four", "Five", "Six", "Seven", "Eight", "Nine", "Ten",
    "Eleven", "Twelve", "Thirteen", "Fourteen", "Fifteen", "Sixteen", "Seventeen", "Eighteen", "Nineteen"]

  /** Words for the multiples of ten; indices 0 and 1 are unused. */
  const Tens: seq<string> := ["", "", "Twenty", "Thirty", "Forty", "Fifty", "Sixty", "Seventy", "Eighty", "Ninety"]

  /** The recursive converter; it gives the empty word for zero and only
      for zero. */
  function ConvertToWords(n: nat): (s: string)
    ensures |s| == 0 <==> n == 0
    decreases n
  {
    if n < 20 then
      TableWords(n);
      BelowTwenty[n]
    else if n < 100 then
      TableWords(n / 10);
      Tens[n / 10] + (if n % 10 != 0 then " " + BelowTwenty[n % 10] else "")
    else if n < 1000 then
      BelowTwenty[n / 100] + " Hundred" + (if n % 100 != 0 then " " + ConvertToWords(n % 100) else "")
    else if n < 1_000_000 then
      ConvertToWords(n / 1000) + " Thousand" + (if n % 1000 != 0 then " " + ConvertToWords(n % 1000) else "")
    else if n < 1_000_000_000 then
      ConvertToWords(n / 1_000_000) + " Million" + (if n % 1_000_000 != 0 then " " + ConvertToWords(n % 1_000_000) else "")
    else
      ConvertToWords(n / 1_000_000_000) + " Billion" + (if n % 1_000_000_000 != 0 then " " + ConvertToWords(n % 1_000_000_000) else "")
  }

  /** The entry point: zero is special-cased, every other amount goes
      through the recursive converter. */
  function NumberToWords(num: nat): (s: string)
    ensures s == "Zero" <==> num == 0
  {
    if num == 0 then "Zero" else
      ConvertHasNoZ(num);
      assert "Zero"[0] == 'Z';
      ConvertToWords(num)
  }

  /** The two tables: a word for each of 0..19 and for each multiple of ten
      below a hundred, empty exactly at the unused entries (0, and 0 and 1 for
      the tens); no entry has 'Z' or a space, and none is a group's scale word. */
  lemma {:induction false} TableWords(n: nat)
    ensures |BelowTwenty| == 20 && |Tens| == 10
    ensures n < 20 ==> (|BelowTwenty[n]| > 0 <==> n > 0)
    ensures n < 20 ==> 'Z' !in BelowTwenty[n] && ' ' !in BelowTwenty[n] && !IsGroupName(BelowTwenty[n])
    ensures n < 10 ==> (|Tens[n]| > 0 <==> n >= 2)
    ensures n < 10 ==> 'Z' !in Tens[n] && ' ' !in Tens[n] && !IsGroupName(Tens[n])
  {
  }

  /** No word the converter can print contains the letter 'Z', so the
      recursive path never prints "Zero". */
  lemma {:induction false} ConvertHasNoZ(n: nat)
    ensures 'Z' !in ConvertToWords(n)
  {
    if n == 0 {
      assert ConvertToWords(0) == "";
    } else {
      ConvertIsJoin(n);
      WordListWords(n);
      JoinHasNoZ(WordList(n));
    }
  }

  /** Words without 'Z' joined by spaces have no 'Z'. */
  lemma {:induction false} JoinHasNoZ(ws: seq<string>)
    requires AllWords(ws)
    ensures 'Z' !in Join(ws)
    decreases |ws|
  {
    if |ws| > 1 {
      assert IsWord(ws[0]);
      assert forall i :: 0 <= i < |ws| - 1 ==> ws[1..][i] == ws[i + 1];
      JoinHasNoZ(ws[1..]);
      assert 'Z' !in " ";
    } else if |ws| == 1 {
      assert IsWord(ws[0]);
    }
  }

  /** A sentence of words: non-empty, no space at either end and never two
      spaces in a row. */
  predicate WellSpaced(s: string) {
    |s| > 0 && s[0] != ' ' && s[|s| - 1] != ' ' &&
    forall i :: 0 <= i < |s| - 1 && s[i] == ' ' ==> s[i + 1] != ' '
  }

  /** A single word is a sentence. */
  lemma {:induction false} WordIsWellSpaced(w: string)
    requires |w| > 0 && ' ' !in w
    ensures WellSpaced(w)
  {
  }

  /** Joining two sentences with one space gives a sentence. */
  lemma {:induction false} JoinWellSpaced(a: string, b: string)
    requires WellSpaced(a) && WellSpaced(b)
    ensures WellSpaced(a + " " + b)
  {
    var s := a + " " + b;
    assert forall j :: 0 <= j < |a| ==> s[j] == a[j];
    assert s[|a|] == ' ';
    assert forall j :: 0 <= j < |b| ==> s[|a| + 1 + j] == b[j];
  }

  /** The base of the largest group that an amount of at least one hundred
      is written in: Hundred, Thousand, Million or Billion. */
  function ScaleBase(n: nat): (k: nat)
    requires n >= 100
    ensures 100 <= k <= n && 0 < n / k < n && n % k < n
  {
    if n < 1000 then 100 else if n < 1_000_000 then 1000 else if n < 1_000_000_000 then 1_000_000 else 1_000_000_000
  }

  /** The scale word that goes with `ScaleBase(n)`. */
  function ScaleName(n: nat): (name: string)
    requires n >= 100
    ensures |name| > 0 && ' ' !in name && 'Z' !in name
  {
    if n < 1000 then "Hundred" else if n < 1_000_000 then "Thousand" else if n < 1_000_000_000 then "Million" else "Billion"
  }

  /** The remainder clause that follows a scale word: absent when the
      remainder is zero, otherwise one space and the remainder's words. */
  function RemainderClause(rest: nat): string {
    if rest != 0 then " " + ConvertToWords(rest) else ""
  }

  /** Every amount of at least one hundred is written uniformly as the words
      of its quotient by the group base, the scale word, and the remainder
      clause; for the Hundred group the quotient's words are the single digit
      word the converter looks up directly. */
  lemma {:induction false} GroupShape(n: nat)
    requires n >= 100
    ensures 0 < n / ScaleBase(n) < n && n % ScaleBase(n) < n
    ensures n < 1000 ==> ConvertToWords(n / ScaleBase(n)) == BelowTwenty[n / 100]
    ensures ConvertToWords(n) == ConvertToWords(n / ScaleBase(n)) + " " + ScaleName(n) + RemainderClause(n % ScaleBase(n))
  {
    if n < 1000 {
      HundredGroup(n);
    } else if n < 1_000_000 {
      ScaleGroup(n, 1000, "Thousand");
    } else if n < 1_000_000_000 {
      ScaleGroup(n, 1_000_000, "Million");
    } else {
      ScaleGroup(n, 1_000_000_000, "Billion");
    }
  }

  /** The Hundred group, where the digit word is looked up directly. */
  lemma {:induction false} HundredGroup(n: nat)
    requires 100 <= n < 1000
    ensures ConvertToWords(n / 100) == BelowTwenty[n / 100]
    ensures ConvertToWords(n) == ConvertToWords(n / 100) + " " + "Hundred" + RemainderClause(n % 100)
  {
    var d := n / 100;
    assert 0 < d < 10;
    assert ConvertToWords(d) == BelowTwenty[d];
    var head := BelowTwenty[d];
    assert ConvertToWords(n) == head + " Hundred" + RemainderClause(n % 100);
    assert head + " Hundred" == head + " " + "Hundred";
  }

  /** The Thousand, Million and Billion groups, where the quotient's words
      come from the converter itself. */
  lemma {:induction false} ScaleGroup(n: nat, k: nat, name: string)
    requires (1000 <= n < 1_000_000 && k == 1000 && name == "Thousand") ||
             (1_000_000 <= n < 1_000_000_000 && k == 1_000_000 && name == "Million") ||
             (1_000_000_000 <= n && k == 1_000_000_000 && name == "Billion")
    ensures ConvertToWords(n) == ConvertToWords(n / k) + " " + name + RemainderClause(n % k)
  {
    var s, head := ConvertToWords(n), ConvertToWords(n / k);
    if n < 1_000_000 {
      assert s == head + " Thousand" + RemainderClause(n % 1000);
      assert head + " Thousand" == head + " " + name;
    } else if n < 1_000_000_000 {
      assert s == head + " Million" + RemainderClause(n % 1_000_000);
      assert head + " Million" == head + " " + name;
    } else {
      assert s == head + " Billion" + RemainderClause(n % 1_000_000_000);
      assert head + " Billion" == head + " " + name;
    }
  }

  /** A word the converter can print: non-empty, no space, no 'Z'. */
  predicate IsWord(w: string) {
    |w| > 0 && ' ' !in w && 'Z' !in w
  }

  /** A list of words the converter can print. */
  predicate AllWords(ws: seq<string>) {
    forall i :: 0 <= i < |ws| ==> IsWord(ws[i])
  }

  /** Words joined by single spaces. */
  function Join(ws: seq<string>): string
    decreases |ws|
  {
    if ws == [] then "" else if |ws| == 1 then ws[0] else ws[0] + " " + Join(ws[1..])
  }

  /** Joining two non-empty lists of words puts one space between their joins. */
  lemma {:induction false} JoinAppend(a: seq<string>, b: seq<string>)
    requires a != [] && b != []
    ensures Join(a + b) == Join(a) + " " + Join(b)
    decreases |a|
  {
    assert (a + b)[0] == a[0] && (a + b)[1..] == a[1..] + b;
    if |a| > 1 {
      JoinAppend(a[1..], b);
    }
  }

  /** The words of a positive amount in the uniform form: below a hundred the
      table words, from a hundred up the quotient's words, the scale word of
      the largest group and the remainder's words when it is not zero. */
  function WordList(n: nat): (ws: seq<string>)
    requires n > 0
    ensures |ws| > 0
    decreases n
  {
    if n < 20 then [BelowTwenty[n]]
    else if n < 100 then [Tens[n / 10]] + (if n % 10 != 0 then [BelowTwenty[n % 10]] else [])
    else if n < 1000 then
      WordList(n / 100) + ["Hundred"] + (if n % 100 != 0 then WordList(n % 100) else [])
    else if n < 1_000_000 then
      WordList(n / 1000) + ["Thousand"] + (if n % 1000 != 0 then WordList(n % 1000) else [])
    else if n < 1_000_000_000 then
      WordList(n / 1_000_000) + ["Million"] + (if n % 1_000_000 != 0 then WordList(n % 1_000_000) else [])
    else
      WordList(n / 1_000_000_000) + ["Billion"] + (if n % 1_000_000_000 != 0 then WordList(n % 1_000_000_000) else [])
  }

  /** From one hundred up, the word list is the quotient's words by the
      group base, the scale word, and the remainder's words when the
      remainder is not zero. */
  lemma {:induction false} WordListGroup(n: nat)
    requires n >= 100
    ensures 0 < n / ScaleBase(n)
    ensures WordList(n) == WordList(n / ScaleBase(n)) + [ScaleName(n)] +
      (if n % ScaleBase(n) != 0 then WordList(n % ScaleBase(n)) else [])
  {
    var ws := WordList(n);
    if n < 1000 {
      assert ws == WordList(n / 100) + ["Hundred"] + (if n % 100 != 0 then WordList(n % 100) else []);
    } else if n < 1_000_000 {
      assert ws == WordList(n / 1000) + ["Thousand"] + (if n % 1000 != 0 then WordList(n % 1000) else []);
    } else if n < 1_000_000_000 {
      assert ws == WordList(n / 1_000_000) + ["Million"] + (if n % 1_000_000 != 0 then WordList(n % 1_000_000) else []);
    } else {
      assert ws == WordList(n / 1_000_000_000) + ["Billion"] + (if n % 1_000_000_000 != 0 then WordList(n % 1_000_000_000) else []);
    }
  }


  /** Every entry of the word list of a positive amount is a word the
      converter can print: non-empty, without spaces and without 'Z'. */
  lemma {:induction false} WordListWords(n: nat)
    requires n > 0
    ensures AllWords(WordList(n))
    decreases n
  {
    var ws := WordList(n);
    if n < 20 {
      TableWords(n);
      assert ws == [BelowTwenty[n]];
    } else if n < 100 {
      TableWords(n / 10);
      TableWords(n % 10);
      var tail := if n % 10 != 0 then [BelowTwenty[n % 10]] else [];
      assert ws == [Tens[n / 10]] + tail;
      AllWordsConcat([Tens[n / 10]], tail);
    } else {
      var k := ScaleBase(n);
      var tail := if n % k != 0 then WordList(n % k) else [];
      WordListWords(n / k);
      if n % k != 0 {
        WordListWords(n % k);
      }
      WordListGroup(n);
      AllWordsConcat(WordList(n / k), [ScaleName(n)]);
      AllWordsConcat(WordList(n / k) + [ScaleName(n)], tail);
    }
  }

  lemma {:induction false} AllWordsConcat(a: seq<string>, b: seq<string>)
    requires AllWords(a) && AllWords(b)
    ensures AllWords(a + b)
  {
    forall i | 0 <= i < |a + b|
      ensures IsWord((a + b)[i])
    {
      if i < |a| {
        assert (a + b)[i] == a[i];
      } else {
        assert (a + b)[i] == b[i - |a|];
      }
    }
  }

  /** A scale word that closes a group of three digits. */
  predicate IsGroupName(w: string) {
    w == "Thousand" || w == "Million" || w == "Billion"
  }

  /** The rank of a group's scale word, larger for a larger group. */
  function GroupRank(w: string): nat {
    if w == "Billion" then 3 else if w == "Million" then 2 else if w == "Thousand" then 1 else 0
  }

  /** The group scale words among `ws`, in order. */
  function GroupWords(ws: seq<string>): seq<string>
    decreases |ws|
  {
    if ws == [] then [] else (if IsGroupName(ws[0]) then [ws[0]] else []) + GroupWords(ws[1..])
  }

  lemma {:induction false} GroupWordsAppend(a: seq<string>, b: seq<string>)
    ensures GroupWords(a + b) == GroupWords(a) + GroupWords(b)
    decreases |a|
  {
    if a == [] {
      assert a + b == b;
    } else {
      assert (a + b)[0] == a[0] && (a + b)[1..] == a[1..] + b;
      GroupWordsAppend(a[1..], b);
    }
  }

  lemma {:induction false} GroupWordsOfOne(w: string)
    ensures GroupWords([w]) == if IsGroupName(w) then [w] else []
  {
    assert [w][1..] == [];
  }

  /** The group scale words of a run of words, a scale word and another run. */
  lemma {:induction false} GroupWordsOfParts(a: seq<string>, name: string, b: seq<string>)
    ensures GroupWords(a + [name] + b) == GroupWords(a) + GroupWords([name]) + GroupWords(b)
  {
    GroupWordsAppend(a + [name], b);
    GroupWordsAppend(a, [name]);
  }

  /** Below a thousand the words hold no group scale word. */
  lemma {:induction false} NoGroupWordsBelowThousand(n: nat)
    requires 0 < n < 1000
    ensures GroupWords(WordList(n)) == []
    decreases n
  {
    if n < 20 {
      TableWords(n);
      GroupWordsOfOne(BelowTwenty[n]);
    } else if n < 100 {
      TableWords(n / 10);
      TableWords(n % 10);
      var tail := if n % 10 != 0 then [BelowTwenty[n % 10]] else [];
      assert WordList(n) == [Tens[n / 10]] + tail;
      GroupWordsAppend([Tens[n / 10]], tail);
      GroupWordsOfOne(Tens[n / 10]);
      GroupWordsOfOne(BelowTwenty[n % 10]);
    } else {
      var q, r := n / 100, n % 100;
      var rest := if r != 0 then WordList(r) else [];
      WordListGroup(n);
      assert WordList(n) == WordList(q) + ["Hundred"] + rest;
      NoGroupWordsBelowThousand(q);
      if r != 0 {
        NoGroupWordsBelowThousand(r);
      }
      GroupWordsOfParts(WordList(q), "Hundred", rest);
      GroupWordsOfOne("Hundred");
    }
  }

  /** Below a million, "Thousand" appears once when there are thousands and
      no other group scale word appears. */
  lemma {:induction false} GroupWordsBelowMillion(n: nat)
    requires 0 < n < 1_000_000
    ensures GroupWords(WordList(n)) == if n >= 1000 then ["Thousand"] else []
  {
    if n < 1000 {
      NoGroupWordsBelowThousand(n);
    } else {
      var q, r := n / 1000, n % 1000;
      var rest := if r != 0 then WordList(r) else [];
      WordListGroup(n);
      assert WordList(n) == WordList(q) + ["Thousand"] + rest;
      NoGroupWordsBelowThousand(q);
      if r != 0 {
        NoGroupWordsBelowThousand(r);
      }
      GroupWordsOfParts(WordList(q), "Thousand", rest);
      GroupWordsOfOne("Thousand");
    }
  }

  /** Below a billion: "Million" when there are millions, then "Thousand"
      when the last six digits hold thousands. */
  lemma {:induction false} GroupWordsBelowBillion(n: nat)
    requires 0 < n < 1_000_000_000
    ensures GroupWords(WordList(n)) ==
      (if n >= 1_000_000 then ["Million"] else []) + (if n % 1_000_000 >= 1000 then ["Thousand"] else [])
  {
    if n < 1_000_000 {
      GroupWordsBelowMillion(n);
    } else {
      GroupWordsMillions(n);
    }
  }

  /** From a million to a billion: the quotient's words hold no group scale
      word, then "Million", then those of the remainder below a million. */
  lemma {:induction false} GroupWordsMillions(n: nat)
    requires 1_000_000 <= n < 1_000_000_000
    ensures GroupWords(WordList(n)) == ["Million"] + (if n % 1_000_000 >= 1000 then ["Thousand"] else [])
  {
    var q, r := n / 1_000_000, n % 1_000_000;
    var rest := if r != 0 then WordList(r) else [];
    assert WordList(n) == WordList(q) + ["Million"] + rest by {
      WordListGroup(n);
    }
    assert GroupWords(WordList(q)) == [] by {
      NoGroupWordsBelowThousand(q);
    }
    assert GroupWords(rest) == if r >= 1000 then ["Thousand"] else [] by {
      if r != 0 {
        GroupWordsBelowMillion(r);
      }
    }
    GroupWordsOfParts(WordList(q), "Million", rest);
    GroupWordsOfOne("Million");
  }

  /** The last six digits of `n` are those of its remainder by a billion. */
  lemma {:induction false} LastSixDigits(n: nat)
    ensures n % 1_000_000_000 % 1_000_000 == n % 1_000_000
  {
    var q, r := n / 1_000_000_000, n % 1_000_000_000;
    var a, b := r / 1_000_000, r % 1_000_000;
    assert n == (q * 1000 + a) * 1_000_000 + b;
  }

  /** Below one trillion the group scale words are exactly: "Billion" when
      there are billions, "Million" when the last nine digits hold millions,
      "Thousand" when the last six digits hold thousands, in that order. */
  lemma {:induction false} GroupWordsBelowTrillion(n: nat)
    requires 0 < n < 1_000_000_000_000
    ensures GroupWords(WordList(n)) ==
      (if n >= 1_000_000_000 then ["Billion"] else []) +
      (if n % 1_000_000_000 >= 1_000_000 then ["Million"] else []) +
      (if n % 1_000_000 >= 1000 then ["Thousand"] else [])
  {
    if n < 1_000_000_000 {
      GroupWordsBelowBillion(n);
    } else {
      GroupWordsBillions(n);
    }
  }

  /** From a billion to a trillion: the quotient's words hold no group scale
      word, then "Billion", then those of the remainder below a billion. */
  lemma {:induction false} GroupWordsBillions(n: nat)
    requires 1_000_000_000 <= n < 1_000_000_000_000
    ensures GroupWords(WordList(n)) == ["Billion"] +
      (if n % 1_000_000_000 >= 1_000_000 then ["Million"] else []) +
      (if n % 1_000_000 >= 1000 then ["Thousand"] else [])
  {
    var q, r := n / 1_000_000_000, n % 1_000_000_000;
    var rest := if r != 0 then WordList(r) else [];
    assert WordList(n) == WordList(q) + ["Billion"] + rest by {
      WordListGroup(n);
    }
    assert GroupWords(WordList(q)) == [] by {
      NoGroupWordsBelowThousand(q);
    }
    assert GroupWords(rest) == (if n % 1_000_000_000 >= 1_000_000 then ["Million"] else []) +
      (if n % 1_000_000 >= 1000 then ["Thousand"] else []) by {
      LastSixDigits(n);
      if r != 0 {
        GroupWordsBelowBillion(r);
      }
    }
    GroupWordsOfParts(WordList(q), "Billion", rest);
    GroupWordsOfOne("Billion");
  }

  /** Below one trillion each group scale word appears at most once, and
      they appear from the largest group down. */
  lemma {:induction false} GroupWordsDescend(n: nat)
    requires 0 < n < 1_000_000_000_000
    ensures var g := GroupWords(WordList(n));
      forall i, j :: 0 <= i < j < |g| ==> GroupRank(g[i]) > GroupRank(g[j])
  {
    var g := GroupWords(WordList(n));
    GroupWordsBelowTrillion(n);
    forall i, j | 0 <= i < j < |g|
      ensures GroupRank(g[i]) > GroupRank(g[j])
    {
      if n >= 1_000_000_000 && i == 0 {
        assert g[i] == "Billion";
        assert g[j] == "Million" || g[j] == "Thousand";
      } else if n % 1_000_000_000 >= 1_000_000 && i == (if n >= 1_000_000_000 then 1 else 0) {
        assert g[i] == "Million";
        assert g[j] == "Thousand";
      } else {
        assert false;
      }
    }
  }

  /** The converter's four scale branches and its table lookups print
      exactly the uniform word list, joined by single spaces. */
  lemma {:induction false} ConvertIsJoin(n: nat)
    requires n > 0
    ensures ConvertToWords(n) == Join(WordList(n))
    decreases n
  {
    if n < 20 {
    } else if n < 100 {
      TensIsJoin(n);
    } else {
      var k := ScaleBase(n);
      assert 0 < n / k < n && n % k < n by { GroupShape(n); }
      ConvertIsJoin(n / k);
      if n % k != 0 {
        ConvertIsJoin(n % k);
      }
      GroupIsJoin(n);
    }
  }

  /** The tens branch: a tens word and an optional unit word. */
  lemma {:induction false} TensIsJoin(n: nat)
    requires 20 <= n < 100
    ensures ConvertToWords(n) == Join(WordList(n))
  {
    if n % 10 != 0 {
      JoinAppend([Tens[n / 10]], [BelowTwenty[n % 10]]);
    }
  }

  /** One group of the uniform form, given that its quotient and remainder
      are already printed as their word lists. */
  lemma {:induction false} GroupIsJoin(n: nat)
    requires n >= 100
    requires ConvertToWords(n / ScaleBase(n)) == Join(WordList(n / ScaleBase(n)))
    requires n % ScaleBase(n) != 0 ==> ConvertToWords(n % ScaleBase(n)) == Join(WordList(n % ScaleBase(n)))
    ensures ConvertToWords(n) == Join(WordList(n))
  {
    var k := ScaleBase(n);
    var q, r := n / k, n % k;
    GroupShape(n);
    WordListGroup(n);
    if r != 0 {
      JoinGroup(ConvertToWords(q), ScaleName(n), " " + ConvertToWords(r), WordList(q), WordList(r));
    } else {
      JoinGroup(ConvertToWords(q), ScaleName(n), "", WordList(q), []);
    }
  }

  /** Joining a head, a scale word and an optional tail, as strings and as
      word lists. */
  lemma {:induction false} JoinGroup(head: string, name: string, clause: string, hs: seq<string>, ts: seq<string>)
    requires hs != [] && head == Join(hs)
    requires (ts == [] && clause == "") || (ts != [] && clause == " " + Join(ts))
    ensures head + " " + name + clause == Join(hs + [name] + ts)
  {
    JoinAppend(hs, [name]);
    if ts != [] {
      JoinAppend(hs + [name], ts);
    } else {
      assert hs + [name] + ts == hs + [name];
    }
  }

  /** The words of a positive amount form a sentence: non-empty, no space
      at either end, never two spaces in a row. */
  lemma {:induction false} ConvertWellSpaced(n: nat)
    requires n > 0
    ensures WellSpaced(ConvertToWords(n))
  {
    ConvertIsJoin(n);
    WordListWords(n);
    JoinIsWellSpaced(WordList(n));
  }

  /** Words joined by single spaces form a sentence. */
  lemma {:induction false} JoinIsWellSpaced(ws: seq<string>)
    requires ws != [] && AllWords(ws)
    ensures WellSpaced(Join(ws))
    decreases |ws|
  {
    assert IsWord(ws[0]);
    WordIsWellSpaced(ws[0]);
    if |ws| > 1 {
      assert forall i :: 0 <= i < |ws| - 1 ==> ws[1..][i] == ws[i + 1];
      JoinIsWellSpaced(ws[1..]);
      JoinWellSpaced(ws[0], Join(ws[1..]));
    }
  }

  /** `t` occurs in `s` starting at index `i`. */
  predicate OccursAt(s: string, t: string, i: nat) {
    i + |t| <= |s| && s[i..i + |t|] == t
  }

  /** `t` occurs in `s` as a contiguous run of characters. */
  ghost predicate HasSubstring(s: string, t: string) {
    exists i: nat :: OccursAt(s, t, i)
  }

  /** "Zero" appears anywhere in the words of an amount exactly when the
      amount is zero: the top-level special case is the only place it is
      produced. */
  lemma {:induction false} ZeroOnlyForZero(n: nat)
    ensures HasSubstring(NumberToWords(n), "Zero") <==> n == 0
  {
    var s := NumberToWords(n);
    if n == 0 {
      assert OccursAt(s, "Zero", 0);
    } else {
      ConvertHasNoZ(n);
      assert "Zero"[0] == 'Z';
      forall i: nat
        ensures !OccursAt(s, "Zero", i)
      {
        if i + 4 <= |s| {
          assert s[i] in s;
          assert s[i..i + 4][0] == s[i] != 'Z';
        }
      }
    }
  }

  /** Every positive amount's words are a well-spaced sentence, and zero's
      are the single word "Zero". */
  lemma {:induction false} NumberToWordsWellSpaced(n: nat)
    ensures WellSpaced(NumberToWords(n))
  {
    if n > 0 {
      ConvertWellSpaced(n);
    }
  }

  /** Between twenty and a hundred: the tens word alone exactly when the unit
      is zero, otherwise the tens word, one space and the unit word. */
  lemma {:induction false} TensShape(n: nat)
    requires 20 <= n < 100
    ensures ConvertToWords(n) == Tens[n / 10] <==> n % 10 == 0
    ensures n % 10 != 0 ==> ConvertToWords(n) == Tens[n / 10] + " " + BelowTwenty[n % 10]
  {
    TableWords(n % 10);
    if n % 10 != 0 {
      assert |ConvertToWords(n)| > |Tens[n / 10]|;
    }
  }

  /** From one hundred up: the words begin with the quotient's words and the
      scale word, and are exactly that prefix when the remainder is zero;
      otherwise one space and the remainder's words follow. */
  lemma {:induction false} GroupRemainderClause(n: nat)
    requires n >= 100
    ensures var head := ConvertToWords(n / ScaleBase(n)) + " " + ScaleName(n);
      |head| <= |ConvertToWords(n)| && ConvertToWords(n)[..|head|] == head &&
      (ConvertToWords(n) == head <==> n % ScaleBase(n) == 0) &&
      (n % ScaleBase(n) != 0 ==> ConvertToWords(n) == head + " " + ConvertToWords(n % ScaleBase(n)))
  {
    var k := ScaleBase(n);
    var head := ConvertToWords(n / k) + " " + ScaleName(n);
    GroupShape(n);
    assert ConvertToWords(n) == head + RemainderClause(n % k);
    assert ConvertToWords(n)[..|head|] == head;
  }

  /** Sample amounts below a thousand, one per branch of the converter and
      the zero case. */
  lemma SampleSmallValues()
    ensures NumberToWords(0) == "Zero"
    ensures NumberToWords(19) == "Nineteen"
    ensures NumberToWords(20) == "Twenty"
    ensures NumberToWords(21) == "Twenty One"
    ensures NumberToWords(100) == "One Hundred"
    ensures NumberToWords(105) == "One Hundred Five"
  {
    Words21();
    Words100();
    Words105();
  }

  /* The converter on single sample amounts, each taken one group at a
     time: the words of each group first, then the whole text. */

  lemma Words21()
    ensures ConvertToWords(21) == "Twenty One"
  {
    var s := ConvertToWords(21);
    assert s == "Twenty" + " " + "One";
  }

  lemma Words100()
    ensures ConvertToWords(100) == "One Hundred"
  {
    var s := ConvertToWords(100);
    assert s == "One" + " Hundred";
  }

  lemma Words105()
    ensures ConvertToWords(105) == "One Hundred Five"
  {
    var s := ConvertToWords(105);
    assert s == "One" + " Hundred" + " " + "Five";
  }

  lemma Words150()
    ensures ConvertToWords(150) == "One Hundred Fifty"
  {
    var s := ConvertToWords(150);
    assert s == "One" + " Hundred" + " " + "Fifty";
  }

  lemma Words250()
    ensures ConvertToWords(250) == "Two Hundred Fifty"
  {
    var s := ConvertToWords(250);
    assert s == "Two" + " Hundred" + " " + "Fifty";
  }

  lemma Words1000()
    ensures ConvertToWords(1000) == "One Thousand"
  {
    var s := ConvertToWords(1000);
    assert s == ConvertToWords(1) + " Thousand";
    assert ConvertToWords(1) == "One";
  }

  lemma Words1150Parts()
    ensures ConvertToWords(1150) == "One" + " Thousand" + " " + "One Hundred Fifty"
  {
    var s := ConvertToWords(1150);
    assert s == ConvertToWords(1) + " Thousand" + " " + ConvertToWords(150);
    Words150();
    assert ConvertToWords(1) == "One";
  }

  lemma Words1150()
    ensures ConvertToWords(1150) == "One Thousand One Hundred Fifty"
  {
    assert "One" + " Thousand" + " " + "One Hundred Fifty" == "One Thousand One Hundred Fifty";
    Words1150Parts();
  }

  lemma Words1250Parts()
    ensures ConvertToWords(1250) == "One" + " Thousand" + " " + "Two Hundred Fifty"
  {
    var s := ConvertToWords(1250);
    assert s == ConvertToWords(1) + " Thousand" + " " + ConvertToWords(250);
    Words250();
    assert ConvertToWords(1) == "One";
  }

  lemma Words1250()
    ensures ConvertToWords(1250) == "One Thousand Two Hundred Fifty"
  {
    assert "One" + " Thousand" + " " + "Two Hundred Fifty" == "One Thousand Two Hundred Fifty";
    Words1250Parts();
  }

  lemma Words1000000()
    ensures ConvertToWords(1000000) == "One Million"
  {
    var s := ConvertToWords(1000000);
    assert s == ConvertToWords(1) + " Million";
    assert ConvertToWords(1) == "One";
  }

  lemma Words2300000Parts()
    ensures ConvertToWords(2300000) == "Two" + " Million" + " " + ("Three" + " Hundred" + " Thousand")
  {
    var s := ConvertToWords(2300000);
    assert s == ConvertToWords(2) + " Million" + " " + ConvertToWords(300000);
    var r := ConvertToWords(300000);
    assert r == ConvertToWords(300) + " Thousand";
    var h := ConvertToWords(300);
    assert h == "Three" + " Hundred";
    assert ConvertToWords(2) == "Two";
  }

  lemma Words2300000()
    ensures ConvertToWords(2300000) == "Two Million Three Hundred Thousand"
  {
    assert "Two" + " Million" + " " + ("Three" + " Hundred" + " Thousand") == "Two Million Three Hundred Thousand";
    Words2300000Parts();
  }

  /** Sample amounts from a thousand up, with and without a remainder after
      the scale word; 1150 is 1000 with fifteen percent VAT added. */
  lemma SampleLargeValues()
    ensures NumberToWords(1000) == "One Thousand"
    ensures NumberToWords(1150) == "One Thousand One Hundred Fifty"
    ensures NumberToWords(1250) == "One Thousand Two Hundred Fifty"
    ensures NumberToWords(1000000) == "One Million"
    ensures NumberToWords(2300000) == "Two Million Three Hundred Thousand"
  {
    Words1000();
    Words1150();
    Words1250();
    Words1000000();
    Words2300000();
  }

  lemma WordsTrillion()
    ensures ConvertToWords(1000000000000) == "One Thousand Billion"
  {
    var s := ConvertToWords(1000000000000);
    assert s == ConvertToWords(1000) + " Billion";
    Words1000();
  }

  lemma WordsTrillionOne()
    ensures ConvertToWords(1000000000001) == "One Thousand Billion One"
  {
    var s := ConvertToWords(1000000000001);
    assert s == ConvertToWords(1000) + " Billion" + " " + ConvertToWords(1);
    Words1000();
    assert ConvertToWords(1) == "One";
  }

  lemma WordsTrillionThousand()
    ensures ConvertToWords(1000000001000) == "One Thousand Billion One Thousand"
  {
    assert "One Thousand" + " Billion" + " " + "One Thousand" == "One Thousand Billion One Thousand";
    var s := ConvertToWords(1000000001000);
    assert s == ConvertToWords(1000) + " Billion" + " " + ConvertToWords(1000);
    Words1000();
  }

  lemma WordsBillionBillion()
    ensures ConvertToWords(1000000000000000000) == "One Billion Billion"
  {
    var s := ConvertToWords(1000000000000000000);
    assert s == ConvertToWords(1000000000) + " Billion";
    var b := ConvertToWords(1000000000);
    assert b == ConvertToWords(1) + " Billion";
    assert ConvertToWords(1) == "One";
  }

  /** There is no scale word past Billion: a quotient by a billion of a
      thousand or more is itself written with its own scale word, so the
      words of one trillion are "One Thousand Billion", those of 10^12 + 1000
      repeat "Thousand" and those of 10^18 repeat "Billion". */
  lemma PastBillion()
    ensures NumberToWords(1000000000000) == "One Thousand Billion"
    ensures NumberToWords(1000000000000000000) == "One Billion Billion"
    ensures NumberToWords(1000000000001) == "One Thousand Billion One"
    ensures NumberToWords(1000000001000) == "One Thousand Billion One Thousand"
  {
    WordsTrillion();
    WordsTrillionOne();
    WordsTrillionThousand();
    WordsBillionBillion();
  }
}
