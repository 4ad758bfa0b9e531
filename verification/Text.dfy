/** Plain string operations the text pipelines share. */
module Text {
  // What the regular expression \s matches, and what trim removes.
  predicate IsSpace(c: char) {
    || '\t' <= c <= '\r' || c == ' ' || c == '\U{00A0}' || c == '\U{1680}' || '\U{2000}' <= c <= '\U{200A}'
    || c == '\U{2028}' || c == '\U{2029}' || c == '\U{202F}' || c == '\U{205F}' || c == '\U{3000}' || c == '\U{FEFF}'
  }

  // The length in UTF-16 units: a character beyond U+FFFF counts twice.
  function Units(s: string): (n: nat)
    ensures |s| <= n <= 2 * |s|
  {
    if s == "" then 0 else Units(s[..|s| - 1]) + if s[|s| - 1] > '\U{FFFF}' then 2 else 1
  }

  function TrimStart(s: string): (r: string)
    ensures |r| <= |s| && (s != "" && IsSpace(s[0]) ==> |r| < |s|)
    ensures r != "" ==> !IsSpace(r[0])
  {
    if s != "" && IsSpace(s[0]) then TrimStart(s[1..]) else s
  }

  function TrimEnd(s: string): string {
    if s != "" && IsSpace(s[|s| - 1]) then TrimEnd(s[..|s| - 1]) else s
  }

  function Trim(s: string): string { TrimEnd(TrimStart(s)) }

  // Only white space is trimmed.
  lemma TrimKeeps(s: string, c: char)
    requires c in s && !IsSpace(c)
    ensures c in Trim(s)
  {
    TrimStartKeeps(s, c);
    TrimEndKeeps(TrimStart(s), c);
  }

  lemma {:induction false} TrimStartKeeps(s: string, c: char)
    requires c in s && !IsSpace(c)
    ensures c in TrimStart(s)
  {
    if IsSpace(s[0]) {
      TrimStartKeeps(s[1..], c);
    }
  }

  lemma {:induction false} TrimEndKeeps(s: string, c: char)
    requires c in s && !IsSpace(c)
    ensures c in TrimEnd(s)
  {
    if IsSpace(s[|s| - 1]) {
      TrimEndKeeps(s[..|s| - 1], c);
    }
  }

  // Every run of white space becomes one blank.
  function Collapse(s: string): string
    decreases |s|
  {
    if s == "" then ""
    else if IsSpace(s[0]) then " " + Collapse(TrimStart(s))
    else [s[0]] + Collapse(s[1..])
  }

  // What is left without any white space.
  function Ink(s: string): string {
    if s == "" then ""
    else Ink(s[..|s| - 1]) + if IsSpace(s[|s| - 1]) then "" else [s[|s| - 1]]
  }

  lemma {:induction false} InkAppends(a: string, b: string)
    ensures Ink(a + b) == Ink(a) + Ink(b)
    decreases |b|
  {
    if b == "" {
      assert a + b == a;
    } else {
      InkAppends(a, b[..|b| - 1]);
      assert (a + b)[..|a + b| - 1] == a + b[..|b| - 1];
    }
  }

  lemma InkOfHead(s: string)
    requires s != ""
    ensures Ink(s) == (if IsSpace(s[0]) then "" else [s[0]]) + Ink(s[1..])
  {
    InkAppends(s[..1], s[1..]);
    assert s[..1] + s[1..] == s;
    assert s[..1][..0] == "";
  }

  lemma {:induction false} TrimStartKeepsInk(s: string)
    ensures Ink(TrimStart(s)) == Ink(s)
  {
    if s != "" && IsSpace(s[0]) {
      TrimStartKeepsInk(s[1..]);
      InkOfHead(s);
    }
  }

  lemma {:induction false} TrimEndKeepsInk(s: string)
    ensures Ink(TrimEnd(s)) == Ink(s)
  {
    if s != "" && IsSpace(s[|s| - 1]) {
      TrimEndKeepsInk(s[..|s| - 1]);
    }
  }

  lemma {:induction false} CollapseKeepsInk(s: string)
    ensures Ink(Collapse(s)) == Ink(s)
    decreases |s|
  {
    if s != "" {
      InkOfHead(s);
      InkOfHead(Collapse(s));
      if IsSpace(s[0]) {
        TrimStartKeepsInk(s);
        CollapseKeepsInk(TrimStart(s));
        assert Collapse(s)[1..] == Collapse(TrimStart(s));
      } else {
        CollapseKeepsInk(s[1..]);
        assert Collapse(s)[1..] == Collapse(s[1..]);
      }
    }
  }

  // The runs of characters other than white space.
  function Words(s: string): (words: seq<string>)
    ensures s != "" && !IsSpace(s[0]) ==> words != []
  {
    if s == "" then []
    else if IsSpace(s[0]) then Words(s[1..])
    else if |s| == 1 || IsSpace(s[1]) then [[s[0]]] + Words(s[1..])
    else [[s[0]] + Words(s[1..])[0]] + Words(s[1..])[1..]
  }

  lemma {:induction false} TrimStartKeepsWords(s: string)
    ensures Words(TrimStart(s)) == Words(s)
  {
    if s != "" && IsSpace(s[0]) {
      TrimStartKeepsWords(s[1..]);
    }
  }

  lemma {:induction false} SpaceAtEnd(s: string, c: char)
    requires IsSpace(c)
    ensures Words(s + [c]) == Words(s)
  {
    if s != "" {
      SpaceAtEnd(s[1..], c);
      assert (s + [c])[1..] == s[1..] + [c];
    }
  }

  lemma {:induction false} TrimEndKeepsWords(s: string)
    ensures Words(TrimEnd(s)) == Words(s)
  {
    if s != "" && IsSpace(s[|s| - 1]) {
      TrimEndKeepsWords(s[..|s| - 1]);
      SpaceAtEnd(s[..|s| - 1], s[|s| - 1]);
      assert s[..|s| - 1] + [s[|s| - 1]] == s;
    }
  }

  lemma CollapseStart(s: string)
    ensures Collapse(s) == "" <==> s == ""
    ensures s != "" ==> (IsSpace(Collapse(s)[0]) <==> IsSpace(s[0]))
  {
  }

  lemma {:induction false} CollapseKeepsWords(s: string)
    ensures Words(Collapse(s)) == Words(s)
    decreases |s|
  {
    if s != "" {
      if IsSpace(s[0]) {
        TrimStartKeepsWords(s);
        CollapseKeepsWords(TrimStart(s));
        assert Collapse(s)[1..] == Collapse(TrimStart(s));
      } else {
        CollapseStart(s[1..]);
        CollapseKeepsWords(s[1..]);
        assert Collapse(s)[1..] == Collapse(s[1..]);
      }
    }
  }

  /** Tidying white space keeps every word, whole and in order. */
  lemma TidyKeepsWords(s: string)
    ensures Words(Trim(Collapse(s))) == Words(s)
  {
    CollapseKeepsWords(s);
    TrimStartKeepsWords(Collapse(s));
    TrimEndKeepsWords(TrimStart(Collapse(s)));
  }

  // Single blanks between words, and nothing else that is white space.
  predicate SingleBlanks(s: string) {
    forall i :: 0 <= i < |s| && IsSpace(s[i]) ==> s[i] == ' ' && (i + 1 < |s| ==> !IsSpace(s[i + 1]))
  }

  predicate Tidy(s: string) {
    SingleBlanks(s) && (s != "" ==> !IsSpace(s[0]) && !IsSpace(s[|s| - 1]))
  }

  lemma {:induction false} CollapseBlanks(s: string)
    ensures SingleBlanks(Collapse(s))
    decreases |s|
  {
    if s != "" {
      var rest := if IsSpace(s[0]) then TrimStart(s) else s[1..];
      CollapseBlanks(rest);
      CollapseStart(rest);
      var r := Collapse(s);
      assert r[1..] == Collapse(rest);
      forall i | 0 <= i < |r| && IsSpace(r[i]) ensures r[i] == ' ' && (i + 1 < |r| ==> !IsSpace(r[i + 1])) {
        if i > 0 {
          assert r[i] == r[1..][i - 1];
          assert i + 1 < |r| ==> r[i + 1] == r[1..][i];
        } else if 1 < |r| {
          assert r[1] == r[1..][0];
        }
      }
    }
  }

  lemma {:induction false} TrimStartBlanks(s: string)
    requires SingleBlanks(s)
    ensures SingleBlanks(TrimStart(s))
  {
    if s != "" && IsSpace(s[0]) {
      assert forall i :: 0 <= i < |s[1..]| ==> s[1..][i] == s[i + 1];
      TrimStartBlanks(s[1..]);
    }
  }

  lemma {:induction false} TrimEndBlanks(s: string)
    requires SingleBlanks(s) && (s != "" ==> !IsSpace(s[0]))
    ensures Tidy(TrimEnd(s))
  {
    if s != "" && IsSpace(s[|s| - 1]) {
      assert forall i :: 0 <= i < |s| - 1 ==> s[..|s| - 1][i] == s[i];
      TrimEndBlanks(s[..|s| - 1]);
    }
  }

  /** ... and leaves single blanks between words only. */
  lemma TidyIsTidy(s: string)
    ensures Tidy(Trim(Collapse(s)))
  {
    CollapseBlanks(s);
    TrimStartBlanks(Collapse(s));
    TrimEndBlanks(TrimStart(Collapse(s)));
  }

  // Words with one blank between each two.
  function JoinWords(words: seq<string>): string {
    if words == [] then ""
    else if |words| == 1 then words[0]
    else words[0] + " " + JoinWords(words[1..])
  }

  /** A word is not empty and holds no white space. */
  lemma {:induction false} WordsAreSolid(s: string, w: string)
    requires w in Words(s)
    ensures w != "" && forall c :: c in w ==> !IsSpace(c)
    decreases |s|
  {
    if IsSpace(s[0]) {
      WordsAreSolid(s[1..], w);
    } else if |s| == 1 || IsSpace(s[1]) {
      if w != [s[0]] { WordsAreSolid(s[1..], w); }
    } else {
      var rest := Words(s[1..]);
      WordsAreSolid(s[1..], rest[0]);
      if w != [s[0]] + rest[0] {
        assert w in rest[1..] && w in rest;
        WordsAreSolid(s[1..], w);
      }
    }
  }

  lemma TidyTail(s: string, k: nat)
    requires Tidy(s) && k < |s| && !IsSpace(s[k])
    ensures Tidy(s[k..])
  {
    assert forall i :: 0 <= i < |s| - k ==> s[k..][i] == s[k + i];
  }

  lemma JoinOneMore(word: string, words: seq<string>)
    requires words != []
    ensures JoinWords([word] + words) == word + " " + JoinWords(words)
  {
    assert ([word] + words)[1..] == words;
  }

  lemma Prepend(c: char, word: string, rest: string)
    ensures ([c] + word) + " " + rest == [c] + (word + " " + rest)
  {
  }

  lemma JoinLonger(c: char, words: seq<string>)
    requires words != []
    ensures JoinWords([[c] + words[0]] + words[1..]) == [c] + JoinWords(words)
  {
    var more := words[1..];
    if more == [] {
      assert [[c] + words[0]] + more == [[c] + words[0]];
    } else {
      assert [words[0]] + more == words;
      JoinOneMore(words[0], more);
      JoinOneMore([c] + words[0], more);
      Prepend(c, words[0], JoinWords(more));
    }
  }

  lemma FirstApart(s: string)
    requires |s| >= 2 && s[1] == ' '
    ensures s == [s[0]] + " " + s[2..]
  {
  }

  /** A tidy text is its words with single blanks between them. */
  lemma {:induction false} TidyIsItsWords(s: string)
    requires Tidy(s)
    ensures s == JoinWords(Words(s))
    decreases |s|
  {
    if |s| == 1 {
      assert Words(s[1..]) == [];
    } else if |s| > 1 && IsSpace(s[1]) {
      TidyTail(s, 2);
      TidyIsItsWords(s[2..]);
      assert s[1..][1..] == s[2..];
      JoinOneMore([s[0]], Words(s[2..]));
      FirstApart(s);
    } else if |s| > 1 {
      TidyTail(s, 1);
      TidyIsItsWords(s[1..]);
      JoinLonger(s[0], Words(s[1..]));
      assert s == [s[0]] + s[1..];
    }
  }

  /** Tidied, a text is its words with single blanks between them, and nothing if it has none. */
  lemma TidiedIsItsWords(s: string)
    ensures Trim(Collapse(s)) == JoinWords(Words(s))
    ensures Trim(Collapse(s)) == "" <==> Words(s) == []
  {
    TidyKeepsWords(s);
    TidyIsTidy(s);
    TidyIsItsWords(Trim(Collapse(s)));
    if Words(s) != [] {
      WordsAreSolid(s, Words(s)[0]);
    }
  }

  /** Tidying white space keeps every other character, in order. */
  lemma TidyKeepsInk(s: string)
    ensures Ink(Trim(Collapse(s))) == Ink(s)
  {
    CollapseKeepsInk(s);
    TrimStartKeepsInk(Collapse(s));
    TrimEndKeepsInk(TrimStart(Collapse(s)));
  }

  // The pieces between separators: always one more than there are separators.
  function Split(s: string, sep: char): (pieces: seq<string>)
    ensures |pieces| > 0
    ensures forall piece :: piece in pieces ==> sep !in piece
  {
    if s == "" then [""]
    else
      var rest := Split(s[1..], sep);
      if s[0] == sep then [""] + rest else [[s[0]] + rest[0]] + rest[1..]
  }

  lemma {:induction false} SplitAt(piece: string, sep: char, rest: string)
    requires sep !in piece
    ensures Split(piece + [sep] + rest, sep) == [piece] + Split(rest, sep)
  {
    if piece == "" {
      assert piece + [sep] + rest == [sep] + rest;
    } else {
      SplitAt(piece[1..], sep, rest);
      assert (piece + [sep] + rest)[1..] == piece[1..] + [sep] + rest;
      assert [piece[0]] + piece[1..] == piece;
    }
  }

  lemma {:induction false} SplitWhole(piece: string, sep: char)
    requires sep !in piece
    ensures Split(piece, sep) == [piece]
  {
    if piece != "" {
      SplitWhole(piece[1..], sep);
      assert [piece[0]] + piece[1..] == piece;
    }
  }

  lemma {:induction false} SplitAdds(s: string, sep: char, c: char)
    requires c !in s
    ensures forall piece :: piece in Split(s, sep) ==> c !in piece
  {
    if s != "" {
      assert c !in s[1..];
      SplitAdds(s[1..], sep, c);
    }
  }
}
