/** wikipedia2matrix: documents to a dictionary and a word-count matrix, and back. */
module Wiki {
  import opened Strings

  // ----- words of a text -----

  predicate IsAlpha(c: char) {
    'a' <= c <= 'z' || 'A' <= c <= 'Z'
  }

  function ToLower(c: char): char {
    if 'A' <= c <= 'Z' then c - 'A' + 'a' else c
  }

  function Lower(s: string): string {
    if s == [] then [] else [ToLower(s[0])] + Lower(s[1..])
  }

  function Run(s: string): string {
    if s == [] || !IsAlpha(s[0]) then [] else [s[0]] + Run(s[1..])
  }

  /** The first run of letters. */
  function Trimmed(s: string): string {
    if s == [] || IsAlpha(s[0]) then Run(s) else Trimmed(s[1..])
  }

  lemma {:induction false} RunFrom(s: string, i: nat)
    requires i <= |s| && forall k :: 0 <= k < i ==> IsAlpha(s[k])
    ensures Run(s) == s[..i] + Run(s[i..])
  {
    if i > 0 {
      RunFrom(s[1..], i - 1);
      assert s[..i] == [s[0]] + s[1..][..i - 1] && s[1..][i - 1..] == s[i..];
    }
  }

  method Trim(str: string) returns (r: string)
    ensures r == Trimmed(str)
  {
    var start := 0;
    while start < |str|
      invariant start <= |str| && Trimmed(str) == Trimmed(str[start..])
    {
      if IsAlpha(str[start]) { break; }
      start := start + 1;
    }
    var end := start;
    while end < |str|
      invariant start <= end <= |str| && forall k :: start <= k < end ==> IsAlpha(str[k])
    {
      if !IsAlpha(str[end]) { break; }
      end := end + 1;
    }
    RunFrom(str[start..], end - start);
    assert str[start..][..end - start] == str[start..end] && str[start..][end - start..] == str[end..];
    r := str[start..end];
  }

  predicate IsDelimiter(c: char) {
    c == ' ' || c == '\t' || c == '\r' || c == '\n'
  }

  function TokenLength(s: string): (n: nat)
    ensures n <= |s| && (s != [] && !IsDelimiter(s[0]) ==> n > 0)
  {
    if s == [] || IsDelimiter(s[0]) then 0 else 1 + TokenLength(s[1..])
  }

  /** strtok: the maximal pieces without delimiters. */
  function Tokens(s: string): seq<string>
    decreases |s|
  {
    if s == [] then []
    else if IsDelimiter(s[0]) then Tokens(s[1..])
    else [s[..TokenLength(s)]] + Tokens(s[TokenLength(s)..])
  }

  /** The part of a string that a C string function sees. */
  function CString(s: string): string {
    if s == [] || s[0] == '\0' then [] else [s[0]] + CString(s[1..])
  }

  /** The words counted in a list of tokens. */
  function WordsOf(tokens: seq<string>): seq<string> {
    if tokens == [] then []
    else
      var w := Lower(Trimmed(tokens[|tokens| - 1]));
      WordsOf(tokens[..|tokens| - 1]) + if w == "" then [] else [w]
  }

  // ----- counting -----

  datatype Count = Count(word: string, n: nat)

  function Keys(wc: seq<Count>): (k: seq<string>)
    ensures |k| == |wc|
  {
    if wc == [] then [] else [wc[0].word] + Keys(wc[1..])
  }

  lemma {:induction false} KeyAt(wc: seq<Count>, i: nat)
    requires i < |wc|
    ensures Keys(wc)[i] == wc[i].word
  {
    if i > 0 {
      KeyAt(wc[1..], i - 1);
    }
  }

  /** std::map: wordmap[w]++, the map kept as its list of entries. */
  function Bump(wc: seq<Count>, w: string): (r: seq<Count>)
    ensures r != []
  {
    if wc == [] || Less(w, wc[0].word) then [Count(w, 1)] + wc
    else if w == wc[0].word then [Count(w, wc[0].n + 1)] + wc[1..]
    else [wc[0]] + Bump(wc[1..], w)
  }

  function CountOf(wc: seq<Count>, v: string): nat {
    if wc == [] then 0 else (if wc[0].word == v then wc[0].n else 0) + CountOf(wc[1..], v)
  }

  function Occurrences(words: seq<string>, v: string): nat {
    if words == [] then 0 else Occurrences(words[..|words| - 1], v) + if words[|words| - 1] == v then 1 else 0
  }

  predicate Positive(wc: seq<Count>) {
    forall i :: 0 <= i < |wc| ==> wc[i].n > 0
  }

  /** A word list with its counts: every word once, in order, with the number of its occurrences. */
  ghost predicate Counts(wc: seq<Count>, words: seq<string>) {
    Sorted(Keys(wc)) && Positive(wc) && forall v :: CountOf(wc, v) == Occurrences(words, v)
  }

  lemma {:induction false} BumpCounts(wc: seq<Count>, w: string, v: string)
    ensures CountOf(Bump(wc, w), v) == CountOf(wc, v) + if v == w then 1 else 0
  {
    if wc != [] && !Less(w, wc[0].word) && w != wc[0].word {
      BumpCounts(wc[1..], w, v);
      assert Bump(wc, w)[1..] == Bump(wc[1..], w);
    } else if wc != [] && w == wc[0].word && !Less(w, wc[0].word) {
      assert Bump(wc, w)[1..] == wc[1..];
    } else {
      assert Bump(wc, w)[1..] == wc;
    }
  }

  lemma {:induction false} BumpKeys(wc: seq<Count>, w: string)
    requires Sorted(Keys(wc))
    ensures Sorted(Keys(Bump(wc, w)))
    ensures forall x :: AllAfter(x, Keys(wc)) && Less(x, w) ==> AllAfter(x, Keys(Bump(wc, w)))
  {
    if wc == [] || Less(w, wc[0].word) {
      assert Bump(wc, w)[1..] == wc;
      if wc != [] {
        AfterTransitive(w, wc[0].word, Keys(wc)[1..]);
        assert Keys(wc) == [wc[0].word] + Keys(wc)[1..];
      }
    } else if w == wc[0].word {
      assert Bump(wc, w)[1..] == wc[1..];
    } else {
      LessTotal(w, wc[0].word);
      BumpKeys(wc[1..], w);
      assert Keys(wc)[1..] == Keys(wc[1..]);
      assert Bump(wc, w)[1..] == Bump(wc[1..], w);
      assert Keys(Bump(wc, w)) == [wc[0].word] + Keys(Bump(wc[1..], w));
      forall x | AllAfter(x, Keys(wc)) && Less(x, w) ensures AllAfter(x, Keys(Bump(wc, w))) {
        assert Less(x, Keys(wc)[0]);
        assert AllAfter(x, Keys(wc)[1..]);
      }
    }
  }

  lemma {:induction false} BumpPositive(wc: seq<Count>, w: string)
    requires Positive(wc)
    ensures Positive(Bump(wc, w))
  {
    if wc != [] && !Less(w, wc[0].word) && w != wc[0].word {
      BumpPositive(wc[1..], w);
    }
  }

  /** Counting one more word. */
  lemma CountsNext(wc: seq<Count>, words: seq<string>, w: string)
    requires Counts(wc, words)
    ensures Counts(Bump(wc, w), words + [w])
  {
    BumpKeys(wc, w);
    BumpPositive(wc, w);
    forall v ensures CountOf(Bump(wc, w), v) == Occurrences(words + [w], v) {
      BumpCounts(wc, w, v);
      assert (words + [w])[..|words|] == words;
    }
  }

  /** The counts of a list of words, one after the other. */
  function CountAll(words: seq<string>): seq<Count> {
    if words == [] then [] else Bump(CountAll(words[..|words| - 1]), words[|words| - 1])
  }

  /** Every word is listed once, in order, with the number of its occurrences. */
  lemma {:induction false} CountAllCounts(words: seq<string>)
    ensures Counts(CountAll(words), words)
  {
    if words != [] {
      var n := |words| - 1;
      CountAllCounts(words[..n]);
      CountsNext(CountAll(words[..n]), words[..n], words[n]);
      assert words == words[..n] + [words[n]];
    }
  }

  /** One more token. */
  lemma CountNext(tokens: seq<string>, i: nat)
    requires i < |tokens|
    ensures var w := Lower(Trimmed(tokens[i])); var wc := CountAll(WordsOf(tokens[..i]));
            CountAll(WordsOf(tokens[..i + 1])) == if w == "" then wc else Bump(wc, w)
  {
    var words := WordsOf(tokens[..i]);
    var w := Lower(Trimmed(tokens[i]));
    assert tokens[..i + 1][..i] == tokens[..i];
    assert words + [] == words && (words + [w])[..|words|] == words;
  }

  method CountWords(tokens: seq<string>) returns (wc: seq<Count>)
    ensures wc == CountAll(WordsOf(tokens))
  {
    wc := [];
    for i := 0 to |tokens|
      invariant wc == CountAll(WordsOf(tokens[..i]))
    {
      var tmp := Trim(tokens[i]);
      tmp := Lower(tmp);
      CountNext(tokens, i);
      if tmp != "" {
        wc := Bump(wc, tmp);
      }
    }
    assert tokens[..|tokens|] == tokens;
  }

  // ----- documents -----

  datatype Doc = Doc(title: string, wc: seq<Count>)

  const SIZE_RANGE: nat := 0x1_0000_0000_0000_0000

  datatype Found = At(pos: nat) | NoPos

  /** std::string::find: the first occurrence. */
  function Find(s: string, pat: string): (f: Found)
    ensures f.At? ==> f.pos + |pat| <= |s|
  {
    if pat <= s then At(0)
    else if s == [] then NoPos
    else
      var f := Find(s[1..], pat);
      if f.At? then At(f.pos + 1) else NoPos
  }

  /** std::string::substr; the length may be a negative number taken as size_t. */
  function Substr(s: string, pos: nat, n: int): string
    requires pos <= |s|
  {
    var len := n % SIZE_RANGE;
    if pos + len <= |s| then s[pos..pos + len] else s[pos..]
  }

  const TITLE := "title=\""
  const CLOSE := "\">"

  predicate HasTag(text: string) {
    Find(text, TITLE).At? && Find(text, CLOSE).At?
  }

  /** The title between a tag at t and its end at te, and the words after it. */
  function TitleAt(text: string, t: nat, te: nat): string
    requires t + 7 <= |text|
  {
    Substr(text, t + 7, te - t - 7)
  }

  function WordsAt(text: string, te: nat): seq<string>
    requires te + 2 <= |text|
  {
    WordsOf(Tokens(CString(text[te + 2..])))
  }

  function TitleOf(text: string): string {
    if HasTag(text) then TitleAt(text, Find(text, TITLE).pos, Find(text, CLOSE).pos) else ""
  }

  /** The words of a document: those after the tag; a text without a complete tag has none. */
  function DocWords(text: string): seq<string> {
    if HasTag(text) then WordsAt(text, Find(text, CLOSE).pos) else []
  }

  function DocOf(text: string): Doc {
    Doc(TitleOf(text), CountAll(DocWords(text)))
  }

  predicate IsSet(dic: seq<string>, before: seq<string>, wc: seq<Count>) {
    Sorted(dic) && (forall w :: w in dic ==> w in before || w in Keys(wc))
    && (forall w :: w in before ==> w in dic) && (forall w :: w in Keys(wc) ==> w in dic)
  }

  lemma {:induction false} KeysAppend(a: seq<Count>, e: Count)
    ensures Keys(a + [e]) == Keys(a) + [e.word]
  {
    if a != [] {
      KeysAppend(a[1..], e);
      assert (a + [e])[1..] == a[1..] + [e];
    }
  }

  lemma InsertMembers(dic: seq<string>, w: string)
    ensures forall x :: x in Insert(dic, w) <==> x in dic || x == w
  {
    forall x ensures x in Insert(dic, w) <==> x in dic || x == w {
      UnionMembers(dic, [w], x);
    }
  }

  /** The words of one document go into the set of its node. */
  method InsertAll(before: seq<string>, wc: seq<Count>) returns (dic: seq<string>)
    requires Sorted(before)
    ensures IsSet(dic, before, wc)
  {
    dic := before;
    for i := 0 to |wc|
      invariant IsSet(dic, before, wc[..i])
    {
      InsertKeeps(dic, wc[i].word);
      InsertMembers(dic, wc[i].word);
      KeysAppend(wc[..i], wc[i]);
      assert wc[..i + 1] == wc[..i] + [wc[i]];
      dic := Insert(dic, wc[i].word);
    }
    assert wc[..|wc|] == wc;
  }

  method ParseDoc(text: string, before: seq<string>) returns (d: Doc, dic: seq<string>)
    requires Sorted(before)
    ensures d == DocOf(text) && IsSet(dic, before, d.wc)
  {
    var t, te := Find(text, TITLE), Find(text, CLOSE);
    if t.NoPos? || te.NoPos? {
      return Doc("", []), before;
    }
    var wc := CountWords(Tokens(CString(text[te.pos + 2..])));
    d := Doc(TitleAt(text, t.pos, te.pos), wc);
    dic := InsertAll(before, wc);
  }

  // ----- nodes and the dictionary -----

  function DocsOf(texts: seq<string>): (docs: seq<Doc>)
    ensures |docs| == |texts|
  {
    if texts == [] then [] else DocsOf(texts[..|texts| - 1]) + [DocOf(texts[|texts| - 1])]
  }

  lemma DocsNext(texts: seq<string>, text: string)
    ensures DocsOf(texts + [text]) == DocsOf(texts) + [DocOf(text)]
  {
    assert (texts + [text])[..|texts|] == texts;
  }

  lemma {:induction false} DocsAppend(s: seq<string>, t: seq<string>)
    ensures DocsOf(s + t) == DocsOf(s) + DocsOf(t)
  {
    if t == [] {
      assert s + t == s;
    } else {
      var n := |t| - 1;
      assert s + t == s + t[..n] + [t[n]];
      DocsAppend(s, t[..n]);
      DocsNext(s + t[..n], t[n]);
    }
  }

  lemma {:induction false} DocAt(texts: seq<string>, i: nat)
    requires i < |texts|
    ensures DocsOf(texts)[i] == DocOf(texts[i])
  {
    if i < |texts| - 1 {
      DocAt(texts[..|texts| - 1], i);
    }
  }

  /** Some document uses the word. */
  predicate Uses(docs: seq<Doc>, w: string) {
    exists i :: 0 <= i < |docs| && w in Keys(docs[i].wc)
  }

  /** The dictionary of some documents: strictly sorted, and exactly their words. */
  ghost predicate IsDictionary(dic: seq<string>, docs: seq<Doc>) {
    Sorted(dic) && forall w :: w in dic <==> Uses(docs, w)
  }

  lemma DictionaryNext(dic: seq<string>, docs: seq<Doc>, d: Doc, dic': seq<string>)
    requires IsDictionary(dic, docs) && IsSet(dic', dic, d.wc)
    ensures IsDictionary(dic', docs + [d])
  {
    forall w ensures w in dic' <==> Uses(docs + [d], w) {
      UsesAppend(docs, [d], w);
      assert [d][0] == d;
      assert Uses([d], w) <==> w in Keys(d.wc);
    }
  }

  lemma UsesAppend(a: seq<Doc>, b: seq<Doc>, w: string)
    ensures Uses(a + b, w) <==> Uses(a, w) || Uses(b, w)
  {
    if Uses(a, w) {
      var i :| 0 <= i < |a| && w in Keys(a[i].wc);
      assert (a + b)[i] == a[i];
    }
    if Uses(b, w) {
      var i :| 0 <= i < |b| && w in Keys(b[i].wc);
      assert (a + b)[|a| + i] == b[i];
    }
  }

  method ParseNode(texts: seq<string>) returns (docs: seq<Doc>, dic: seq<string>)
    ensures docs == DocsOf(texts) && IsDictionary(dic, docs)
  {
    docs, dic := [], [];
    for i := 0 to |texts|
      invariant docs == DocsOf(texts[..i]) && IsDictionary(dic, docs)
    {
      var d, next := ParseDoc(texts[i], dic);
      DictionaryNext(dic, docs, d, next);
      DocsNext(texts[..i], texts[i]);
      assert texts[..i + 1] == texts[..i] + [texts[i]];
      docs, dic := docs + [d], next;
    }
    assert texts[..|texts|] == texts;
  }

  /** The texts of the nodes, and the order in which their sets are united: any tree. */
  datatype Tree = Node(texts: seq<string>) | Both(left: Tree, right: Tree)

  function Texts(t: Tree): seq<string> {
    match t
    case Node(texts) => texts
    case Both(l, r) => Texts(l) + Texts(r)
  }

  lemma UnionDictionary(a: seq<string>, b: seq<string>, l: seq<Doc>, r: seq<Doc>)
    requires IsDictionary(a, l) && IsDictionary(b, r)
    ensures IsDictionary(SetUnion(a, b), l + r)
  {
    UnionSorted(a, b);
    forall w ensures w in SetUnion(a, b) <==> Uses(l + r, w) {
      UnionMembers(a, b, w);
      UsesAppend(l, r, w);
    }
  }

  method BuildDictionary(t: Tree) returns (docs: seq<Doc>, dic: seq<string>)
    ensures docs == DocsOf(Texts(t)) && IsDictionary(dic, docs)
    decreases t
  {
    match t
    case Node(texts) => docs, dic := ParseNode(texts);
    case Both(l, r) =>
      var a, da := BuildDictionary(l);
      var b, db := BuildDictionary(r);
      DocsAppend(Texts(l), Texts(r));
      UnionDictionary(da, db, a, b);
      docs, dic := a + b, SetUnion(da, db);
  }

  /** Documents with the same words, however spread and united, have the same dictionary. */
  lemma DictionaryUnique(dic: seq<string>, docs: seq<Doc>, dic': seq<string>, docs': seq<Doc>)
    requires IsDictionary(dic, docs) && IsDictionary(dic', docs') && forall w :: Uses(docs, w) <==> Uses(docs', w)
    ensures dic == dic'
  {
    SortedUnique(dic, dic');
  }

  /** The documents that have words. */
  function Kept(docs: seq<Doc>): seq<Doc> {
    if docs == [] then []
    else Kept(docs[..|docs| - 1]) + if docs[|docs| - 1].wc == [] then [] else [docs[|docs| - 1]]
  }

  lemma {:induction false} KeptUses(docs: seq<Doc>, w: string)
    ensures Uses(Kept(docs), w) <==> Uses(docs, w)
  {
    if docs != [] {
      var n := |docs| - 1;
      KeptUses(docs[..n], w);
      assert docs == docs[..n] + [docs[n]];
      UsesAppend(docs[..n], [docs[n]], w);
      UsesAppend(Kept(docs[..n]), [docs[n]], w);
      if docs[n].wc == [] {
        assert Keys([]) == [];
        assert !Uses([docs[n]], w);
        assert Kept(docs[..n]) + [] == Kept(docs[..n]);
      }
    }
  }

  lemma {:induction false} KeptNonEmpty(docs: seq<Doc>)
    ensures forall d :: d in Kept(docs) <==> d in docs && d.wc != []
  {
    if docs != [] {
      KeptNonEmpty(docs[..|docs| - 1]);
      assert docs == docs[..|docs| - 1] + [docs[|docs| - 1]];
    }
  }

  lemma OneMore<T>(a: seq<T>, x: T, y: T)
    ensures multiset(a + [x])[y] == multiset(a)[y] + if y == x then 1 else 0
  {
  }

  lemma KeptNext(docs: seq<Doc>, last: Doc, d: Doc)
    ensures multiset(Kept(docs + [last]))[d] == multiset(Kept(docs))[d] + if d == last && d.wc != [] then 1 else 0
  {
    assert (docs + [last])[..|docs|] == docs;
    if last.wc == [] {
      assert Kept(docs) + [] == Kept(docs);
    } else {
      OneMore(Kept(docs), last, d);
    }
  }

  /** Every document with words is kept as often as it is there. */
  lemma {:induction false} KeptOften(docs: seq<Doc>, d: Doc)
    ensures multiset(Kept(docs))[d] == if d.wc == [] then 0 else multiset(docs)[d]
  {
    if docs != [] {
      var front, last := docs[..|docs| - 1], docs[|docs| - 1];
      assert front + [last] == docs;
      KeptOften(front, d);
      OneMore(front, last, d);
      KeptNext(front, last, d);
    }
  }

  /** The documents without words, dropped before the matrix is made, have no part in the dictionary. */
  lemma DictionaryOfKept(dic: seq<string>, docs: seq<Doc>)
    requires IsDictionary(dic, docs)
    ensures IsDictionary(dic, Kept(docs))
  {
    forall w ensures w in dic <==> Uses(Kept(docs), w) {
      KeptUses(docs, w);
    }
  }

  // ----- the matrix -----

  datatype Cell = Cell(col: nat, n: nat)

  method MakeMat(doc: Doc, dic: seq<string>) returns (row: seq<Cell>)
    ensures |row| == |doc.wc|
    ensures forall i :: 0 <= i < |row| ==> row[i] == Cell(LowerBound(dic, doc.wc[i].word), doc.wc[i].n)
  {
    row := [];
    for i := 0 to |doc.wc|
      invariant |row| == i
      invariant forall k :: 0 <= k < i ==> row[k] == Cell(LowerBound(dic, doc.wc[k].word), doc.wc[k].n)
    {
      row := row + [Cell(LowerBound(dic, doc.wc[i].word), doc.wc[i].n)];
    }
  }

  /** The row says what the document says: in range, in increasing columns, and decoded back by the dictionary. */
  predicate RowOk(row: seq<Cell>, doc: Doc, dic: seq<string>) {
    && |row| == |doc.wc| && row != []
    && (forall i :: 0 <= i < |row| ==> row[i].col < |dic| && Count(dic[row[i].col], row[i].n) == doc.wc[i])
    && (forall i, j :: 0 <= i < j < |row| ==> row[i].col < row[j].col)
  }

  lemma RowDecodes(row: seq<Cell>, doc: Doc, dic: seq<string>)
    requires |row| == |doc.wc| && row != []
    requires forall i :: 0 <= i < |row| ==> row[i] == Cell(LowerBound(dic, doc.wc[i].word), doc.wc[i].n)
    requires Sorted(dic) && Sorted(Keys(doc.wc)) && forall w :: w in Keys(doc.wc) ==> w in dic
    ensures RowOk(row, doc, dic)
  {
    forall i | 0 <= i < |row| ensures row[i].col < |dic| && Count(dic[row[i].col], row[i].n) == doc.wc[i] {
      KeyAt(doc.wc, i);
      assert Keys(doc.wc)[i] in Keys(doc.wc);
      LowerBoundFinds(dic, doc.wc[i].word);
    }
    forall i, j | 0 <= i < j < |row| ensures row[i].col < row[j].col {
      KeyAt(doc.wc, i);
      KeyAt(doc.wc, j);
      SortedAt(Keys(doc.wc), i, j);
      assert Keys(doc.wc)[i] in Keys(doc.wc) && Keys(doc.wc)[j] in Keys(doc.wc);
      LowerBoundOrder(dic, doc.wc[i].word, doc.wc[j].word);
    }
  }

  /** The words of the document are those of one of the texts, with their counts. */
  ghost predicate FromText(d: Doc, texts: seq<string>) {
    exists i :: 0 <= i < |texts| && d.title == TitleOf(texts[i]) && Counts(d.wc, DocWords(texts[i]))
  }

  lemma KeptFrom(texts: seq<string>, dic: seq<string>, d: Doc)
    requires IsDictionary(dic, DocsOf(texts)) && d in Kept(DocsOf(texts))
    ensures FromText(d, texts) && d.wc != [] && Sorted(Keys(d.wc)) && forall w :: w in Keys(d.wc) ==> w in dic
  {
    var docs := DocsOf(texts);
    KeptNonEmpty(docs);
    var i :| 0 <= i < |docs| && docs[i] == d;
    DocAt(texts, i);
    CountAllCounts(DocWords(texts[i]));
    forall w | w in Keys(d.wc) ensures w in dic {
      assert w in Keys(docs[i].wc);
      assert Uses(docs, w);
    }
  }

  /** The row of a document with words, made from one of the texts. */
  ghost predicate RowFor(row: seq<Cell>, doc: Doc, texts: seq<string>, dic: seq<string>) {
    FromText(doc, texts) && RowOk(row, doc, dic)
  }

  method MakeRow(doc: Doc, dic: seq<string>, ghost texts: seq<string>) returns (row: seq<Cell>)
    requires IsDictionary(dic, DocsOf(texts)) && doc in Kept(DocsOf(texts))
    ensures RowFor(row, doc, texts, dic)
  {
    KeptFrom(texts, dic, doc);
    row := MakeMat(doc, dic);
    RowDecodes(row, doc, dic);
  }

  lemma InKept(sorted: seq<Doc>, docs: seq<Doc>, i: nat)
    requires multiset(sorted) == multiset(Kept(docs)) && i < |sorted|
    ensures sorted[i] in Kept(docs)
  {
    assert sorted[i] in multiset(sorted);
  }

  /** The rows, for the kept documents in whatever order the sort has put them; none of them is empty, as the
      output loop requires. */
  lemma RowsNext(mat: seq<seq<Cell>>, row: seq<Cell>, sorted: seq<Doc>, texts: seq<string>, dic: seq<string>)
    requires |mat| < |sorted| && RowFor(row, sorted[|mat|], texts, dic)
    requires forall k :: 0 <= k < |mat| ==> RowFor(mat[k], sorted[k], texts, dic)
    ensures forall k :: 0 <= k <= |mat| ==> RowFor((mat + [row])[k], sorted[k], texts, dic)
  {
  }

  method MakeMatrix(dic: seq<string>, sorted: seq<Doc>, ghost texts: seq<string>) returns (mat: seq<seq<Cell>>)
    requires IsDictionary(dic, DocsOf(texts)) && multiset(sorted) == multiset(Kept(DocsOf(texts)))
    ensures |mat| == |sorted| && forall i :: 0 <= i < |mat| ==> RowFor(mat[i], sorted[i], texts, dic)
  {
    mat := [];
    for i := 0 to |sorted|
      invariant |mat| == i && forall k :: 0 <= k < i ==> RowFor(mat[k], sorted[k], texts, dic)
    {
      InKept(sorted, DocsOf(texts), i);
      var row := MakeRow(sorted[i], dic, texts);
      RowsNext(mat, row, sorted, texts, dic);
      mat := mat + [row];
    }
  }
}
