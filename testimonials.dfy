/**
 * The testimonial rotator (five quotes, arrows, dots and a six-second autoplay)
 * and the avatar initials taken from a person's name.
 */
module Testimonials {

  import opened Cyclic

  /** The number of testimonials on the page. */
  const QuoteCount: int := 5

  /** The autoplay period in milliseconds; the timer itself is outside the model. */
  const AutoplayMillis: int := 6000

  /** The rotator's state, updated in place by its handlers. */
  class Rotator {
    var current: int

    ghost predicate Valid()
      reads this
    {
      0 <= current < QuoteCount
    }

    constructor ()
      ensures Valid() && current == 0
    {
      current := 0;
    }

    method Next()
      requires Valid()
      modifies this
      ensures Valid() && current == Succ(old(current), QuoteCount)
    {
      current := (current + 1) % QuoteCount;
    }

    method Prev()
      requires Valid()
      modifies this
      ensures Valid() && current == Pred(old(current), QuoteCount)
    {
      current := (current - 1 + QuoteCount) % QuoteCount;
    }

    /** A dot click shows exactly the clicked quote. */
    method Select(i: int)
      requires 0 <= i < QuoteCount
      modifies this
      ensures Valid() && current == i
    {
      current := i;
    }

    /** One autoplay period elapsing: the same update as the next arrow. */
    method Tick()
      requires Valid()
      modifies this
      ensures Valid() && current == Succ(old(current), QuoteCount)
    {
      Next();
    }

    /** `k` autoplay periods. */
    method Ticks(k: nat)
      requires Valid()
      modifies this
      ensures Valid() && current == SuccN(old(current), QuoteCount, k)
    {
      var i := 0;
      while i < k
        invariant 0 <= i <= k && Valid()
        invariant SuccN(current, QuoteCount, k - i) == SuccN(old(current), QuoteCount, k)
      {
        Tick();
        i := i + 1;
      }
    }
  }

  /** Five autoplay periods show the same quote again, from any quote. */
  lemma FiveTicksReturn(p: int)
    requires 0 <= p < QuoteCount
    ensures SuccN(p, QuoteCount, 5) == p
  {
    FullLap(p, QuoteCount);
  }

  // ---------------------------------------------------------------- initials

  /** String.prototype.split with a one-character separator: empty pieces are kept, and "" splits to [""]. */
  function Split(s: string, sep: char): (parts: seq<string>)
    ensures |parts| >= 1
    ensures forall k :: 0 <= k < |parts| ==> sep !in parts[k]
    decreases |s|
  {
    if |s| == 0 then [""]
    else
      var rest := Split(s[1..], sep);
      if s[0] == sep then [""] + rest
      else [[s[0]] + rest[0]] + rest[1..]
  }

  /** Array.prototype.join with a one-character separator. */
  function Join(parts: seq<string>, sep: char): string
    requires |parts| >= 1
    decreases |parts|
  {
    if |parts| == 1 then parts[0] else parts[0] + [sep] + Join(parts[1..], sep)
  }

  /** Splitting and joining again gives back the original text. */
  lemma {:induction false} JoinSplit(s: string, sep: char)
    ensures Join(Split(s, sep), sep) == s
    decreases |s|
  {
    if |s| > 0 {
      var rest := Split(s[1..], sep);
      JoinSplit(s[1..], sep);
      if s[0] == sep {
        assert Split(s, sep) == [""] + rest;
        assert ([""] + rest)[1..] == rest;
      } else {
        var parts := [[s[0]] + rest[0]] + rest[1..];
        assert Split(s, sep) == parts;
        if |rest| == 1 {
          assert Join(parts, sep) == [s[0]] + rest[0];
        } else {
          assert parts[1..] == rest[1..];
          assert Join(rest, sep) == rest[0] + [sep] + Join(rest[1..], sep);
        }
      }
      assert s == [s[0]] + s[1..];
    }
  }

  /** Joining words that contain no separator and splitting again gives back the words. */
  lemma {:induction false} SplitJoin(words: seq<string>, sep: char)
    requires |words| >= 1
    requires forall k :: 0 <= k < |words| ==> sep !in words[k]
    ensures Split(Join(words, sep), sep) == words
    decreases |words|
  {
    if |words| == 1 {
      SplitWord(words[0], [], sep);
      assert words[0] + [] == words[0];
      assert Split([], sep) == [""];
      assert words[0] + "" == words[0];
      assert [words[0]] == words;
    } else {
      SplitJoin(words[1..], sep);
      SplitWord(words[0], [sep] + Join(words[1..], sep), sep);
      assert words[0] + [sep] + Join(words[1..], sep) == words[0] + ([sep] + Join(words[1..], sep));
      var rest := Split([sep] + Join(words[1..], sep), sep);
      assert rest == [""] + words[1..] by {
        assert ([sep] + Join(words[1..], sep))[1..] == Join(words[1..], sep);
      }
      assert words[0] + rest[0] == words[0];
      assert rest[1..] == words[1..];
      assert [words[0]] + words[1..] == words;
    }
  }

  /** Splitting a word followed by more text: the word extends the first piece of the text. */
  lemma {:induction false} SplitWord(w: string, tail: string, sep: char)
    requires sep !in w
    ensures var rest := Split(tail, sep);
      Split(w + tail, sep) == [w + rest[0]] + rest[1..]
    decreases |w|
  {
    if |w| == 0 {
      assert w + tail == tail;
      var rest := Split(tail, sep);
      assert w + rest[0] == rest[0];
      assert [rest[0]] + rest[1..] == rest;
    } else {
      assert (w + tail)[1..] == w[1..] + tail;
      assert (w + tail)[0] == w[0];
      SplitWord(w[1..], tail, sep);
      var rest := Split(tail, sep);
      var r := Split(w[1..] + tail, sep);
      assert r == [w[1..] + rest[0]] + rest[1..];
      assert Split(w + tail, sep) == [[w[0]] + r[0]] + r[1..];
      assert [w[0]] + (w[1..] + rest[0]) == w + rest[0];
    }
  }

  /** `n[0]` of a word; an empty word contributes nothing to the joined initials. */
  function FirstChar(word: string): (c: string)
    ensures |c| <= 1
    ensures |word| > 0 ==> c == [word[0]]
  {
    if |word| == 0 then "" else [word[0]]
  }

  /** The first character of every piece, concatenated. */
  function FirstChars(words: seq<string>): (r: string)
    ensures |r| <= |words|
  {
    if |words| == 0 then "" else FirstChar(words[0]) + FirstChars(words[1..])
  }

  /** The avatar text: the name split on spaces, each piece's first character, joined without a separator. */
  function Initials(name: string): string
  {
    FirstChars(Split(name, ' '))
  }

  /** For a name made of non-empty words separated by single spaces, the initials are the words' first letters, in order. */
  lemma InitialsOfWords(words: seq<string>)
    requires |words| >= 1
    requires forall k :: 0 <= k < |words| ==> |words[k]| > 0 && ' ' !in words[k]
    ensures Initials(Join(words, ' ')) == seq(|words|, k requires 0 <= k < |words| => words[k][0])
    ensures |Initials(Join(words, ' '))| == |words|
  {
    SplitJoin(words, ' ');
    FirstCharsOfWords(words);
  }

  /** The names of the five people quoted, in display order. */
  const Names: seq<string> := ["Dr. Sarah Mitchell", "James Rodriguez", "Rachel Kim", "Marcus Chen", "Linda Foster"]

  /** The avatar of each quoted person: DSM, JR, RK, MC and LF. */
  lemma AvatarInitials(k: int)
    requires 0 <= k < |Names|
    ensures Initials(Names[k]) == ["DSM", "JR", "RK", "MC", "LF"][k]
  {
    var initials := ["DSM", "JR", "RK", "MC", "LF"];
    if k == 0 {
      assert Initials(Names[0]) == initials[0] by {
        assert "Dr." + " " + "Sarah" + " " + "Mitchell" == Names[0];
        NameInitials3("Dr.", "Sarah", "Mitchell");
      }
    } else if k == 1 {
      assert Initials(Names[1]) == initials[1] by {
        assert "James" + " " + "Rodriguez" == Names[1];
        NameInitials2("James", "Rodriguez");
      }
    } else if k == 2 {
      assert Initials(Names[2]) == initials[2] by {
        assert "Rachel" + " " + "Kim" == Names[2];
        NameInitials2("Rachel", "Kim");
      }
    } else if k == 3 {
      assert Initials(Names[3]) == initials[3] by {
        assert "Marcus" + " " + "Chen" == Names[3];
        NameInitials2("Marcus", "Chen");
      }
    } else {
      assert Initials(Names[4]) == initials[4] by {
        assert "Linda" + " " + "Foster" == Names[4];
        NameInitials2("Linda", "Foster");
      }
    }
  }

  lemma NameInitials2(a: string, b: string)
    requires |a| > 0 && |b| > 0 && ' ' !in a && ' ' !in b
    ensures Initials(a + " " + b) == [a[0], b[0]]
  {
    JoinTwo(a, b, ' ');
    InitialsOfWords([a, b]);
  }

  lemma NameInitials3(a: string, b: string, c: string)
    requires |a| > 0 && |b| > 0 && |c| > 0 && ' ' !in a && ' ' !in b && ' ' !in c
    ensures Initials(a + " " + b + " " + c) == [a[0], b[0], c[0]]
  {
    JoinThree(a, b, c, ' ');
    InitialsOfWords([a, b, c]);
  }

  lemma JoinTwo(a: string, b: string, sep: char)
    ensures Join([a, b], sep) == a + [sep] + b
  {
    assert [a, b][1..] == [b];
  }

  lemma JoinThree(a: string, b: string, c: string, sep: char)
    ensures Join([a, b, c], sep) == a + [sep] + b + [sep] + c
  {
    assert [a, b, c][1..] == [b, c];
    JoinTwo(b, c, sep);
  }

  lemma {:induction false} FirstCharsOfWords(words: seq<string>)
    requires forall k :: 0 <= k < |words| ==> |words[k]| > 0
    ensures FirstChars(words) == seq(|words|, k requires 0 <= k < |words| => words[k][0])
    decreases |words|
  {
    if |words| > 0 {
      FirstCharsOfWords(words[1..]);
    }
  }
}
