/** What the words and the title of a document are, told from its text and apart from the functions that find them. */
module WikiText {
  import opened Wiki

  // ----- the word of a token -----

  /** d is the small form of letter c. */
  predicate SmallOf(d: char, c: char) {
    'a' <= d <= 'z' && (c == d || c as int + 32 == d as int)
  }

  predicate NoLetter(s: string) {
    forall i, d :: 0 <= i < |s| ==> !SmallOf(d, s[i])
  }

  /** w spells a run of letters in small letters. */
  predicate Spells(w: string, run: string) {
    |w| == |run| && forall i :: 0 <= i < |w| ==> SmallOf(w[i], run[i])
  }

  /** run is the first run of letters of a token, and as long as it can be. */
  predicate FirstRun(token: string, pre: string, run: string, post: string) {
    token == pre + run + post && NoLetter(pre) && (run == "" ==> post == "") && (post == "" || NoLetter(post[..1]))
  }

  lemma SmallIsLower(d: char, c: char)
    ensures SmallOf(d, c) <==> IsAlpha(c) && d == ToLower(c)
  {
  }

  lemma NoLetterAlpha(s: string, i: nat)
    requires NoLetter(s) && i < |s|
    ensures !IsAlpha(s[i])
  {
    SmallIsLower(ToLower(s[i]), s[i]);
  }

  lemma AlphaNoLetter(c: char)
    requires !IsAlpha(c)
    ensures NoLetter([c])
  {
    forall d ensures !SmallOf(d, c) {
      SmallIsLower(d, c);
    }
  }

  lemma NoLetterTail(s: string)
    requires NoLetter(s) && s != ""
    ensures NoLetter(s[1..])
  {
    forall i, d | 0 <= i < |s[1..]| ensures !SmallOf(d, s[1..][i]) {
      assert s[1..][i] == s[i + 1];
    }
  }

  lemma {:induction false} RunIs(run: string, post: string, w: string)
    requires Spells(w, run) && (post == "" || NoLetter(post[..1]))
    ensures Lower(Run(run + post)) == w
  {
    if run == "" {
      assert run + post == post;
      if post != "" {
        NoLetterAlpha(post[..1], 0);
      }
    } else {
      SmallIsLower(w[0], run[0]);
      forall i | 0 <= i < |w[1..]| ensures SmallOf(w[1..][i], run[1..][i]) {
        assert SmallOf(w[i + 1], run[i + 1]);
      }
      RunIs(run[1..], post, w[1..]);
      assert (run + post)[1..] == run[1..] + post && w == [w[0]] + w[1..];
      assert Run(run + post)[1..] == Run(run[1..] + post);
    }
  }

  /** A token stands for its first run of letters, in small letters, or for no word if it has no letter. */
  lemma {:induction false} TokenGives(pre: string, run: string, post: string, w: string)
    requires FirstRun(pre + run + post, pre, run, post) && Spells(w, run)
    ensures Lower(Trimmed(pre + run + post)) == w
  {
    var s := pre + run + post;
    if pre != "" {
      NoLetterAlpha(pre, 0);
      NoLetterTail(pre);
      assert s[1..] == pre[1..] + run + post;
      TokenGives(pre[1..], run, post, w);
    } else if run != "" {
      SmallIsLower(w[0], run[0]);
      assert s == run + post;
      RunIs(run, post, w);
    }
  }

  /** Every token has such a run. */
  lemma {:induction false} TokenHas(token: string) returns (pre: string, run: string, post: string)
    ensures FirstRun(token, pre, run, post) && Spells(Lower(Trimmed(token)), run)
  {
    if token == "" {
      pre, run, post := "", "", "";
    } else if IsAlpha(token[0]) {
      run, post := RunHas(token);
      pre := "";
      assert token == pre + run + post;
    } else {
      pre, run, post := TokenHas(token[1..]);
      AlphaNoLetter(token[0]);
      pre := [token[0]] + pre;
      assert token == pre + run + post;
    }
  }

  lemma {:induction false} RunHas(s: string) returns (run: string, post: string)
    ensures s == run + post && Spells(Lower(Run(s)), run) && (post == "" || NoLetter(post[..1]))
    ensures s != "" && IsAlpha(s[0]) ==> run != ""
  {
    if s == "" || !IsAlpha(s[0]) {
      run, post := "", s;
      if s != "" {
        AlphaNoLetter(s[0]);
        assert s[..1] == [s[0]];
      }
    } else {
      run, post := RunHas(s[1..]);
      run := [s[0]] + run;
      SmallIsLower(ToLower(s[0]), s[0]);
      var rest := Lower(Run(s[1..]));
      assert Run(s)[1..] == Run(s[1..]) && Lower(Run(s)) == [ToLower(s[0])] + rest;
      assert s == run + post;
    }
  }

  /** The words of a list of tokens are the words that the tokens stand for, one after the other. */
  lemma WordsNext(tokens: seq<string>, token: string, pre: string, run: string, post: string, w: string)
    requires FirstRun(token, pre, run, post) && Spells(w, run)
    ensures WordsOf([]) == []
    ensures WordsOf(tokens + [token]) == WordsOf(tokens) + if w == "" then [] else [w]
  {
    TokenGives(pre, run, post, w);
    assert (tokens + [token])[..|tokens|] == tokens;
  }

  /** Every word is a non-empty string of small letters. */
  lemma {:induction false} WordsSmall(tokens: seq<string>)
    ensures forall w :: w in WordsOf(tokens) ==> w != "" && forall i :: 0 <= i < |w| ==> 'a' <= w[i] <= 'z'
  {
    if tokens != [] {
      var n := |tokens| - 1;
      WordsSmall(tokens[..n]);
      var pre, run, post := TokenHas(tokens[n]);
      var w := Lower(Trimmed(tokens[n]));
      assert forall i :: 0 <= i < |w| ==> SmallOf(w[i], run[i]);
    }
  }

  predicate SameLetter(c: char, c': char) {
    c == c' || exists d :: SmallOf(d, c) && SmallOf(d, c')
  }

  /** The same text, but for the case of letters. */
  predicate SameButCase(a: string, b: string) {
    |a| == |b| && forall i :: 0 <= i < |a| ==> SameLetter(a[i], b[i])
  }

  lemma CaseOfChar(a: string, b: string)
    requires SameButCase(a, b) && a != ""
    ensures ToLower(a[0]) == ToLower(b[0]) && (IsAlpha(a[0]) <==> IsAlpha(b[0])) && SameButCase(a[1..], b[1..])
  {
    assert SameLetter(a[0], b[0]);
    if a[0] != b[0] {
      var d :| SmallOf(d, a[0]) && SmallOf(d, b[0]);
      SmallIsLower(d, a[0]);
      SmallIsLower(d, b[0]);
    }
    forall i | 0 <= i < |a[1..]| ensures SameLetter(a[1..][i], b[1..][i]) {
      assert SameLetter(a[i + 1], b[i + 1]);
    }
  }

  lemma {:induction false} RunCase(a: string, b: string)
    requires SameButCase(a, b)
    ensures Lower(Run(a)) == Lower(Run(b))
  {
    if a != "" {
      CaseOfChar(a, b);
      RunCase(a[1..], b[1..]);
      if IsAlpha(a[0]) {
        assert Run(a)[1..] == Run(a[1..]) && Run(b)[1..] == Run(b[1..]);
      }
    }
  }

  lemma {:induction false} TokenCase(a: string, b: string)
    requires SameButCase(a, b)
    ensures Lower(Trimmed(a)) == Lower(Trimmed(b))
  {
    if a == "" {
      assert b == "";
    } else {
      CaseOfChar(a, b);
      if IsAlpha(a[0]) {
        RunCase(a, b);
      } else {
        TokenCase(a[1..], b[1..]);
      }
    }
  }

  /** Words are counted alike whatever the case of their letters. */
  lemma {:induction false} CaseIgnored(a: seq<string>, b: seq<string>)
    requires |a| == |b| && forall k :: 0 <= k < |a| ==> SameButCase(a[k], b[k])
    ensures WordsOf(a) == WordsOf(b)
  {
    if a != [] {
      var n := |a| - 1;
      CaseIgnored(a[..n], b[..n]);
      TokenCase(a[n], b[n]);
    }
  }

  // ----- the tokens of a text -----

  predicate Blank(s: string) {
    forall i :: 0 <= i < |s| ==> s[i] in " \t\r\n"
  }

  predicate Solid(s: string) {
    s != "" && forall i :: 0 <= i < |s| ==> s[i] !in " \t\r\n"
  }

  /** A token and the blanks behind it. */
  datatype Spaced = Spaced(token: string, gap: string)

  function Woven(parts: seq<Spaced>): string {
    if parts == [] then "" else parts[0].token + parts[0].gap + Woven(parts[1..])
  }

  function TokensIn(parts: seq<Spaced>): seq<string> {
    if parts == [] then [] else [parts[0].token] + TokensIn(parts[1..])
  }

  /** Tokens have no blank in them, and there is a blank between any two of them. */
  predicate WellSpaced(parts: seq<Spaced>) {
    forall i :: 0 <= i < |parts| ==>
      Solid(parts[i].token) && Blank(parts[i].gap) && (i + 1 < |parts| ==> parts[i].gap != "")
  }

  lemma BlankIs(c: char)
    ensures c in " \t\r\n" <==> IsDelimiter(c)
  {
    var blanks := " \t\r\n";
    assert blanks[0] == ' ' && blanks[1] == '\t' && blanks[2] == '\r' && blanks[3] == '\n';
  }

  lemma {:induction false} SkipsBlank(gap: string, s: string)
    requires Blank(gap)
    ensures Tokens(gap + s) == Tokens(s)
  {
    if gap == "" {
      assert gap + s == s;
    } else {
      BlankIs(gap[0]);
      SkipsBlank(gap[1..], s);
      assert (gap + s)[1..] == gap[1..] + s;
    }
  }

  lemma {:induction false} TokenEnds(token: string, s: string)
    requires (token == "" || Solid(token)) && (s == "" || s[0] in " \t\r\n")
    ensures TokenLength(token + s) == |token|
  {
    if token == "" {
      assert token + s == s;
      if s != "" { BlankIs(s[0]); }
    } else {
      BlankIs(token[0]);
      assert (token + s)[1..] == token[1..] + s;
      TokenEnds(token[1..], s);
    }
  }

  lemma WellSpacedTail(parts: seq<Spaced>)
    requires WellSpaced(parts) && parts != []
    ensures WellSpaced(parts[1..])
  {
    forall i | 0 <= i < |parts[1..]|
      ensures Solid(parts[1..][i].token) && Blank(parts[1..][i].gap)
      ensures i + 1 < |parts[1..]| ==> parts[1..][i].gap != ""
    {
      assert parts[1..][i] == parts[i + 1];
    }
  }

  lemma FirstToken(token: string, rest: string)
    requires Solid(token) && (rest == "" || rest[0] in " \t\r\n")
    ensures Tokens(token + rest) == [token] + Tokens(rest)
  {
    TokenEnds(token, rest);
    BlankIs(token[0]);
    assert (token + rest)[0] == token[0];
    assert (token + rest)[..|token|] == token && (token + rest)[|token|..] == rest;
  }

  /** Cutting a text at its blanks: whatever the text has been put together from is found again. */
  lemma {:induction false} TokensBack(gap: string, parts: seq<Spaced>)
    requires Blank(gap) && WellSpaced(parts)
    ensures Tokens(gap + Woven(parts)) == TokensIn(parts)
    decreases |parts|
  {
    SkipsBlank(gap, Woven(parts));
    if parts != [] {
      var p, rest := parts[0], parts[0].gap + Woven(parts[1..]);
      WellSpacedTail(parts);
      TokensBack(p.gap, parts[1..]);
      assert Woven(parts) == p.token + rest;
      if |parts| == 1 {
        assert rest == p.gap;
      }
      FirstToken(p.token, rest);
    }
  }

  /** Every text has been put together like that. */
  lemma {:induction false} TextWoven(s: string) returns (gap: string, parts: seq<Spaced>)
    ensures s == gap + Woven(parts) && Blank(gap) && WellSpaced(parts)
    decreases |s|
  {
    if s == "" {
      gap, parts := "", [];
    } else {
      gap, parts := TextWoven(s[1..]);
      if s[0] in " \t\r\n" {
        gap := [s[0]] + gap;
        assert s == [s[0]] + s[1..];
      } else if gap == "" && parts != [] {
        parts := Longer(s[0], parts);
        assert s == [s[0]] + s[1..];
      } else {
        parts := [Spaced([s[0]], gap)] + parts;
        gap := "";
        assert s == [s[0]] + s[1..];
      }
    }
  }

  lemma Longer(c: char, parts: seq<Spaced>) returns (longer: seq<Spaced>)
    requires c !in " \t\r\n" && WellSpaced(parts) && parts != []
    ensures WellSpaced(longer) && Woven(longer) == [c] + Woven(parts)
  {
    longer := [Spaced([c] + parts[0].token, parts[0].gap)] + parts[1..];
    assert longer[1..] == parts[1..];
  }

  /** A text ends, for the C library, at its first null character. */
  lemma {:induction false} CStringIs(a: string, b: string)
    requires '\0' !in a
    ensures CString(a) == a && CString(a + ['\0'] + b) == a
  {
    if a == "" {
      assert a + ['\0'] + b == ['\0'] + b;
    } else {
      CStringIs(a[1..], b);
      assert (a + ['\0'] + b)[1..] == a[1..] + ['\0'] + b;
    }
  }

  // ----- title and body -----

  /** pat stands at i and nowhere before. */
  predicate FirstAt(text: string, pat: string, i: nat) {
    i <= |text| && pat <= text[i..] && forall k :: 0 <= k < i ==> !(pat <= text[k..])
  }

  predicate Nowhere(text: string, pat: string) {
    forall k :: 0 <= k <= |text| ==> !(pat <= text[k..])
  }

  lemma {:induction false} FindFirst(text: string, pat: string, i: nat)
    requires FirstAt(text, pat, i)
    ensures Find(text, pat) == At(i)
  {
    assert text[0..] == text;
    if i > 0 {
      forall k | 0 <= k < i - 1 ensures !(pat <= text[1..][k..]) {
        assert text[1..][k..] == text[k + 1..];
      }
      assert text[1..][i - 1..] == text[i..];
      FindFirst(text[1..], pat, i - 1);
    }
  }

  lemma {:induction false} FindNowhere(text: string, pat: string)
    requires Nowhere(text, pat)
    ensures Find(text, pat) == NoPos
  {
    assert text[0..] == text;
    if text != "" {
      forall k | 0 <= k <= |text[1..]| ensures !(pat <= text[1..][k..]) {
        assert text[1..][k..] == text[k + 1..];
      }
      FindNowhere(text[1..], pat);
    }
  }

  /** substr takes the length as a size_t: a negative one reaches to the end of any text. */
  lemma SubstrIs(s: string, pos: nat, n: int)
    requires pos <= |s| < SIZE_RANGE && 0 <= pos + n <= |s|
    ensures Substr(s, pos, n) == if 0 <= n then s[pos..pos + n] else s[pos..]
  {
    if 0 <= n {
      assert n % SIZE_RANGE == n;
    } else {
      assert n % SIZE_RANGE == n + SIZE_RANGE;
    }
  }

  lemma TitleIs(text: string, t: nat, te: nat)
    requires t + 7 <= |text| < SIZE_RANGE && te <= |text|
    ensures TitleAt(text, t, te) == if t + 7 <= te then text[t + 7..te] else text[t + 7..]
  {
    SubstrIs(text, t + 7, te - t - 7);
  }

  lemma TitlePart(text: string, t: nat, te: nat)
    requires Find(text, TITLE) == At(t) && Find(text, CLOSE) == At(te)
    ensures t + 7 <= |text| && te <= |text| && TitleOf(text) == TitleAt(text, t, te)
  {
    assert |TITLE| == 7;
  }

  lemma WordsPart(text: string, te: nat)
    requires Find(text, TITLE).At? && Find(text, CLOSE) == At(te)
    ensures te + 2 <= |text| && DocWords(text) == WordsAt(text, te)
  {
    assert |CLOSE| == 2;
  }

  lemma WordsAre(text: string, te: nat)
    requires te + 2 <= |text|
    ensures WordsAt(text, te) == WordsOf(Tokens(CString(text[te + 2..])))
  {
  }

  /** The title stands between the first title=" and the first ">, or reaches to the end if that comes first; the words
      are those behind the latter. */
  lemma DocParts(text: string, t: nat, te: nat)
    requires FirstAt(text, "title=\"", t) && FirstAt(text, "\">", te) && |text| < SIZE_RANGE
    ensures t + 7 <= |text| && te + 2 <= |text|
    ensures TitleOf(text) == if t + 7 <= te then text[t + 7..te] else text[t + 7..]
    ensures DocWords(text) == WordsOf(Tokens(CString(text[te + 2..])))
  {
    FindFirst(text, TITLE, t);
    FindFirst(text, CLOSE, te);
    TitlePart(text, t, te);
    TitleIs(text, t, te);
    WordsPart(text, te);
    WordsAre(text, te);
  }

  /** A text in which one of the two is missing has neither title nor words. */
  lemma NoDoc(text: string)
    requires Nowhere(text, "title=\"") || Nowhere(text, "\">")
    ensures DocOf(text) == Doc("", [])
  {
    if Nowhere(text, TITLE) {
      FindNowhere(text, TITLE);
    } else {
      FindNowhere(text, CLOSE);
    }
  }
}
