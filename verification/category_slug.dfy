/** The link slug of a home-page category: the name lower-cased, with every
    run of whitespace replaced by one dash
    (`name.toLowerCase().replace(/\s+/g, '-')`). */
module CategorySlug {
  import opened Seqs
  import opened Text

  /** `replace(/\s+/g, '-')`: each maximal run of whitespace becomes one
      `-`; every other character is kept. */
  function Dash(s: string): (r: string)
    ensures |r| <= |s|
    ensures forall i :: 0 <= i < |r| ==> !IsSpace(r[i])
    decreases |s|
  {
    if s == [] then []
    else if IsSpace(s[0]) then "-" + Dash(TrimStart(s[1..]))
    else [s[0]] + Dash(s[1..])
  }

  /** The replacement introduces no capital letter. */
  lemma {:induction false} DashKeepsLowerCase(s: string)
    requires forall i :: 0 <= i < |s| ==> !IsUpper(s[i])
    ensures forall i :: 0 <= i < |Dash(s)| ==> !IsUpper(Dash(s)[i])
    decreases |s|
  {
    if s != [] {
      if IsSpace(s[0]) {
        var rest := TrimStart(s[1..]);
        assert forall i :: 0 <= i < |rest| ==> rest[i] == s[1..][|s[1..]| - |rest| + i];
        DashKeepsLowerCase(rest);
      } else {
        DashKeepsLowerCase(s[1..]);
      }
    }
  }

  /** The slug of a category name: no whitespace, no capital, and never
      longer than the name. */
  function Slug(name: string): (r: string)
    ensures |r| <= |name|
    ensures forall i :: 0 <= i < |r| ==> !IsSpace(r[i]) && !IsUpper(r[i])
  {
    DashKeepsLowerCase(Lower(name));
    Dash(Lower(name))
  }

  /** A slug has no whitespace. */
  lemma SlugHasNoSpace(name: string)
    ensures forall i :: 0 <= i < |Slug(name)| ==> !IsSpace(Slug(name)[i])
  {
  }

  /** Text without whitespace passes through the replacement unchanged. */
  lemma {:induction false} DashFixed(s: string)
    requires forall i :: 0 <= i < |s| ==> !IsSpace(s[i])
    ensures Dash(s) == s
  {
    if s != [] {
      DashFixed(s[1..]);
    }
  }

  /** Slugging a slug gives the same slug. */
  lemma SlugIdempotent(name: string)
    ensures Slug(Slug(name)) == Slug(name)
  {
    var slug := Dash(Lower(name));
    DashKeepsLowerCase(Lower(name));
    LowerFixed(slug);
    DashFixed(slug);
  }

  /** A run of whitespace before a non-space character (or the end) becomes
      exactly one dash. */
  lemma {:induction false} DashRun(run: string, rest: string)
    requires run != [] && forall i :: 0 <= i < |run| ==> IsSpace(run[i])
    requires rest == [] || !IsSpace(rest[0])
    ensures Dash(run + rest) == "-" + Dash(rest)
  {
    TrimSpaces(run[1..], rest);
    assert (run + rest)[1..] == run[1..] + rest;
  }

  /** Leading whitespace in front of a non-space character (or the end) is
      removed completely. */
  lemma {:induction false} TrimSpaces(run: string, rest: string)
    requires forall i :: 0 <= i < |run| ==> IsSpace(run[i])
    requires rest == [] || !IsSpace(rest[0])
    ensures TrimStart(run + rest) == rest
  {
    if run == [] {
      assert run + rest == rest;
    } else {
      assert (run + rest)[1..] == run[1..] + rest;
      TrimSpaces(run[1..], rest);
    }
  }

  /** A non-space character is kept, in place. */
  lemma DashWord(c: char, rest: string)
    requires !IsSpace(c)
    ensures Dash([c] + rest) == [c] + Dash(rest)
  {
    assert ([c] + rest)[1..] == rest;
  }

  /** The characters that are neither whitespace nor a dash. */
  predicate Letter(c: char) {
    !IsSpace(c) && c != '-'
  }

  function IsLetter(): char -> bool {
    c => Letter(c)
  }

  /** Apart from the dashes, the replacement keeps exactly the non-space
      characters, in order. */
  lemma {:induction false} DashKeepsLetters(s: string)
    ensures Filter(Dash(s), IsLetter()) == Filter(s, IsLetter())
    decreases |s|
  {
    if s != [] {
      if IsSpace(s[0]) {
        SkipRun(s);
        DashKeepsLetters(TrimStart(s[1..]));
      } else {
        assert s == [s[0]] + s[1..];
        FilterAppend([s[0]], s[1..], IsLetter());
        FilterAppend([s[0]], Dash(s[1..]), IsLetter());
        DashKeepsLetters(s[1..]);
      }
    }
  }

  /** A leading whitespace run holds no letter, and its dash adds none. */
  lemma SkipRun(s: string)
    requires s != [] && IsSpace(s[0])
    ensures Filter(s, IsLetter()) == Filter(TrimStart(s[1..]), IsLetter())
    ensures Filter(Dash(s), IsLetter()) == Filter(Dash(TrimStart(s[1..])), IsLetter())
  {
    var rest := TrimStart(s[1..]);
    var run := s[..|s| - |rest|];
    assert s == run + rest;
    forall i | 0 <= i < |run| ensures IsSpace(run[i]) {
      if i > 0 {
        RunIsSpace(s[1..], i - 1);
      }
    }
    FilterAppend(run, rest, IsLetter());
    FilterDropsAll(run, IsLetter());
    FilterAppend("-", Dash(rest), IsLetter());
  }

  /** What `TrimStart` removes is whitespace. */
  lemma {:induction false} RunIsSpace(s: string, i: nat)
    requires i < |s| - |TrimStart(s)|
    ensures IsSpace(s[i])
  {
    if i > 0 {
      RunIsSpace(s[1..], i - 1);
    }
  }

  /** The slug's letters are the name's letters, lower-cased and in order. */
  lemma SlugKeepsLetters(name: string)
    ensures Filter(Slug(name), IsLetter()) == Filter(Lower(name), IsLetter())
  {
    DashKeepsLetters(Lower(name));
  }

  /** The "Coffee & Tea" category, once lower-cased, links to `coffee-&-tea`. */
  lemma CoffeeAndTea()
    ensures Dash("coffee & tea") == "coffee-&-tea"
  {
    assert "coffee & tea" == "coffee" + (" " + ("&" + (" " + "tea")));
    DashWords("coffee", "&", "tea");
    assert "coffee" + ("-" + ("&" + ("-" + "tea"))) == "coffee-&-tea";
  }

  /** Three words separated by single spaces become three words separated by
      dashes. */
  lemma DashWords(a: string, b: string, c: string)
    requires forall i :: 0 <= i < |a| ==> !IsSpace(a[i])
    requires b != [] && forall i :: 0 <= i < |b| ==> !IsSpace(b[i])
    requires c != [] && forall i :: 0 <= i < |c| ==> !IsSpace(c[i])
    ensures Dash(a + (" " + (b + (" " + c)))) == a + ("-" + (b + ("-" + c)))
  {
    var t1 := " " + c;
    var t2 := b + t1;
    var t3 := " " + t2;
    DashFixed(c);
    DashRun(" ", c);
    assert Dash(t1) == "-" + c;
    DashAppendWord(b, t1);
    assert Dash(t2) == b + ("-" + c);
    assert t2[0] == b[0];
    DashRun(" ", t2);
    assert Dash(t3) == "-" + (b + ("-" + c));
    DashAppendWord(a, t3);
  }

  /** A word with no whitespace followed by anything: the word is kept and
      the rest is replaced on its own. */
  lemma {:induction false} DashAppendWord(word: string, rest: string)
    requires forall i :: 0 <= i < |word| ==> !IsSpace(word[i])
    ensures Dash(word + rest) == word + Dash(rest)
  {
    if word != [] {
      assert word + rest == [word[0]] + (word[1..] + rest);
      DashWord(word[0], word[1..] + rest);
      DashAppendWord(word[1..], rest);
      calc {
        Dash(word + rest);
        [word[0]] + Dash(word[1..] + rest);
        [word[0]] + (word[1..] + Dash(rest));
        ([word[0]] + word[1..]) + Dash(rest);
        { assert word == [word[0]] + word[1..]; }
        word + Dash(rest);
      }
    } else {
      assert word + rest == rest;
    }
  }
}
