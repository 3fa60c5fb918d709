/** Text extraction from an uploaded PDF (main.py, `extract_text_from_pdf`) and the
    `strip()` test the caller applies to the result. The per-page strings that the PDF
    library extracts are taken as input. */
module PdfText {

  /** The page texts in order, each followed by a newline: the value the loop builds. */
  function JoinPages(pages: seq<string>): string
  {
    if pages == [] then "" else JoinPages(pages[..|pages| - 1]) + pages[|pages| - 1] + "\n"
  }

  /** The loop of `extract_text_from_pdf`: `text += page.extract_text() + "\n"` per page. */
  method ExtractText(pages: seq<string>) returns (text: string)
    ensures text == JoinPages(pages)
  {
    text := "";
    var k := 0;
    while k < |pages|
      invariant 0 <= k <= |pages|
      invariant text == JoinPages(pages[..k])
    {
      assert pages[..k + 1][..k] == pages[..k];
      text := text + pages[k] + "\n";
      k := k + 1;
    }
    assert pages[..k] == pages;
  }

  function TotalLength(pages: seq<string>): nat
  {
    if pages == [] then 0 else TotalLength(pages[..|pages| - 1]) + |pages[|pages| - 1]|
  }

  /** The extracted text is as long as all pages together plus one newline per page. */
  lemma {:induction false} JoinPagesLength(pages: seq<string>)
    ensures |JoinPages(pages)| == TotalLength(pages) + |pages|
  {
    if pages != [] {
      JoinPagesLength(pages[..|pages| - 1]);
    }
  }

  /** Extraction distributes over splitting the document: the text of a + b is the text of
      a followed by the text of b, so every page appears, in order, followed by "\n". */
  lemma {:induction false} JoinPagesAppend(a: seq<string>, b: seq<string>)
    ensures JoinPages(a + b) == JoinPages(a) + JoinPages(b)
  {
    if b != [] {
      var b' := b[..|b| - 1];
      assert (a + b)[..|a + b| - 1] == a + b';
      assert (a + b)[|a + b| - 1] == b[|b| - 1];
      JoinPagesAppend(a, b');
    } else {
      assert a + b == a;
    }
  }

  /** Page k's text sits between the text of the pages before it and a newline. */
  lemma {:induction false} JoinPagesAt(pages: seq<string>, k: nat)
    requires k < |pages|
    ensures JoinPages(pages) == JoinPages(pages[..k]) + pages[k] + "\n" + JoinPages(pages[k + 1..])
  {
    var before, rest := pages[..k], pages[k + 1..];
    assert pages == before + ([pages[k]] + rest);
    JoinPagesAppend(before, [pages[k]] + rest);
    JoinPagesAppend([pages[k]], rest);
    assert JoinPages([pages[k]]) == pages[k] + "\n" by {
      assert [pages[k]][..0] == [];
    }
  }

  /** Python's `str.isspace` for one character: the characters `strip()` removes. */
  predicate IsSpace(c: char)
  {
    ('\U{9}' <= c <= '\U{D}') || ('\U{1C}' <= c <= '\U{20}') || c == '\U{85}' || c == '\U{A0}'
    || c == '\U{1680}' || ('\U{2000}' <= c <= '\U{200A}') || c == '\U{2028}' || c == '\U{2029}'
    || c == '\U{202F}' || c == '\U{205F}' || c == '\U{3000}'
  }

  /** A text with no character other than whitespace. */
  predicate IsBlank(s: string)
  {
    forall i :: 0 <= i < |s| ==> IsSpace(s[i])
  }

  /** Leading whitespace removed. */
  function TrimStart(s: string): (r: string)
    ensures |r| <= |s| && r == s[|s| - |r|..]
    ensures r != [] ==> !IsSpace(r[0])
    ensures IsBlank(s[..|s| - |r|])
  {
    if s != [] && IsSpace(s[0]) then
      var r := TrimStart(s[1..]);
      assert s[..|s| - |r|] == [s[0]] + s[1..][..|s[1..]| - |r|];
      r
    else s
  }

  /** Trailing whitespace removed. */
  function TrimEnd(s: string): (r: string)
    ensures |r| <= |s| && r == s[..|r|]
    ensures r != [] ==> !IsSpace(r[|r| - 1])
    ensures IsBlank(s[|r|..])
  {
    if s != [] && IsSpace(s[|s| - 1]) then
      var r := TrimEnd(s[..|s| - 1]);
      assert s[|r|..] == s[..|s| - 1][|r|..] + [s[|s| - 1]];
      r
    else s
  }

  /** Python's `s.strip()`: whitespace cut off at both ends. It is empty, and so falsy,
      exactly when s is whitespace only. */
  function Strip(s: string): (r: string)
    ensures |r| <= |s|
    ensures r != [] ==> !IsSpace(r[0]) && !IsSpace(r[|r| - 1])
    ensures r == [] <==> IsBlank(s)
  {
    var t := TrimStart(s);
    var r := TrimEnd(t);
    assert r == [] ==> IsBlank(s) by {
      if r == [] {
        assert IsBlank(t);
        assert s == s[..|s| - |t|] + t;
        BlankConcat(s[..|s| - |t|], t);
      }
    }
    assert r != [] ==> !IsBlank(s) by {
      if r != [] {
        assert r[0] == s[|s| - |t|];
      }
    }
    r
  }

  /** `s.strip()` is a slice of s, and what it cuts off on either side is whitespace only. */
  lemma StripIsSlice(s: string)
    ensures exists i :: 0 <= i <= |s| - |Strip(s)| && Strip(s) == s[i..i + |Strip(s)|]
                        && IsBlank(s[..i]) && IsBlank(s[i + |Strip(s)|..])
  {
    var t := TrimStart(s);
    var r := Strip(s);
    var i := |s| - |t|;
    assert r == s[i..i + |r|] && IsBlank(s[..i]);
    assert s[i + |r|..] == t[|r|..];
  }

  /** The extracted text is blank exactly when every page's text is blank; a document with
      no pages gives the empty text. */
  lemma {:induction false} JoinPagesBlank(pages: seq<string>)
    ensures IsBlank(JoinPages(pages)) <==> forall k :: 0 <= k < |pages| ==> IsBlank(pages[k])
  {
    if pages != [] {
      var init := pages[..|pages| - 1];
      var last := pages[|pages| - 1];
      JoinPagesBlank(init);
      var t := JoinPages(pages);
      assert t == JoinPages(init) + last + "\n";
      BlankConcat(JoinPages(init), last);
      BlankConcat(JoinPages(init) + last, "\n");
      assert forall k :: 0 <= k < |init| ==> init[k] == pages[k];
    }
  }

  lemma BlankConcat(a: string, b: string)
    ensures IsBlank(a + b) <==> IsBlank(a) && IsBlank(b)
  {
    if IsBlank(a + b) {
      assert forall i :: 0 <= i < |a| ==> a[i] == (a + b)[i];
      assert forall i :: 0 <= i < |b| ==> b[i] == (a + b)[|a| + i];
    }
  }
}
