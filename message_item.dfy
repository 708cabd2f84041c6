/** The older message row: when `isFile` is set it takes the href from the first `(...)`
    and the text from the first `[...]` of the content (`/\((.*?)\)/`, `/\[(.*?)\]/`). */
module MessageItem {
  import opened Wrappers
  import opened Text
  import opened FileContent

  /** What the row shows. Reading group 1 of a failed match (`null[1]`) throws. */
  datatype Rendered = Link(text: string, href: string) | Shown(content: Option<string>) | Throws

  /** `open`, then no line break, then `close` at `k`: a match of the pattern at `p`
      whose group is `s[p + 1..k]`. */
  predicate EnclosedAt(s: string, open: char, close: char, p: nat, k: nat) {
    && p < k < |s| && s[p] == open && s[k] == close
    && forall m :: p < m < k ==> !IsLineTerminator(s[m])
  }

  /** The lazy group `(.*?)` from `p`: the first `close` at or after `k`, with no line
      break before it. */
  function CloseFrom(s: string, close: char, p: nat, k: nat): (r: Option<nat>)
    requires p < k <= |s|
    requires forall m :: p < m < k ==> s[m] != close && !IsLineTerminator(s[m])
    ensures r.Some? ==> k <= r.value < |s| && s[r.value] == close
    ensures r.Some? ==> forall m :: p < m < r.value ==> s[m] != close && !IsLineTerminator(s[m])
    ensures r.None? ==> forall m :: p < m < |s| && s[m] == close ==>
                          exists l :: p < l < m && IsLineTerminator(s[l])
    decreases |s| - k
  {
    if k == |s| then None
    else if s[k] == close then Some(k)
    else if IsLineTerminator(s[k]) then None
    else CloseFrom(s, close, p, k + 1)
  }

  /** The leftmost match at or after `p`, and its group's end. */
  function FirstEnclosed(s: string, open: char, close: char, p: nat): (r: Option<(nat, nat)>)
    requires forall p': nat, k': nat :: p' < p ==> !EnclosedAt(s, open, close, p', k')
    ensures r.Some? ==> EnclosedAt(s, open, close, r.value.0, r.value.1)
    ensures r.Some? ==> forall p': nat, k': nat :: p' < r.value.0 ==> !EnclosedAt(s, open, close, p', k')
    ensures r.Some? ==> forall k': nat :: k' < r.value.1 ==> !EnclosedAt(s, open, close, r.value.0, k')
    ensures r.None? ==> forall p': nat, k': nat :: !EnclosedAt(s, open, close, p', k')
    decreases |s| - p
  {
    if p >= |s| then None
    else
      var k := if s[p] == open && p + 1 <= |s| then CloseFrom(s, close, p, p + 1) else None;
      if k.Some? then Some((p, k.value)) else FirstEnclosed(s, open, close, p + 1)
  }

  /** `content.match(re)[1]`, or `None` when the match is `null`. */
  function Group(s: string, open: char, close: char): (r: Option<string>)
    ensures r.None? <==> forall p: nat, k: nat :: !EnclosedAt(s, open, close, p, k)
    ensures r.Some? ==> exists p: nat, k: nat :: EnclosedAt(s, open, close, p, k) && r.value == s[p + 1..k]
  {
    match FirstEnclosed(s, open, close, 0)
    case Some(m) => Some(s[m.0 + 1..m.1])
    case None => None
  }

  /** The row for a message with the given flag and content: a file message throws unless
      both pairs occur, and otherwise links the first `(...)` as href and shows the first
      `[...]` as text. */
  function Render(isFile: bool, content: Option<string>): (r: Rendered)
    ensures r.Shown? <==> !isFile
    ensures r.Shown? ==> r.content == content
    ensures r.Throws? <==> isFile && (content.None?
                                       || (forall p: nat, k: nat :: !EnclosedAt(content.value, '(', ')', p, k))
                                       || (forall p: nat, k: nat :: !EnclosedAt(content.value, '[', ']', p, k)))
    ensures r.Link? ==> exists p: nat, k: nat :: EnclosedAt(content.value, '(', ')', p, k) && r.href == content.value[p + 1..k]
    ensures r.Link? ==> exists p: nat, k: nat :: EnclosedAt(content.value, '[', ']', p, k) && r.text == content.value[p + 1..k]
    ensures r.Link? ==> Some(r.href) == Group(content.value, '(', ')') && Some(r.text) == Group(content.value, '[', ']')
  {
    if !isFile then Shown(content)
    else if content.None? then Throws
    else
      var href := Group(content.value, '(', ')');
      var text := Group(content.value, '[', ']');
      if href.None? || text.None? then Throws else Link(text.value, href.value)
  }

  lemma LeastEnclosedUnique(s: string, open: char, close: char, p: nat, k: nat, q: (nat, nat))
    requires EnclosedAt(s, open, close, p, k) && EnclosedAt(s, open, close, q.0, q.1)
    requires forall p': nat, k': nat :: p' < p ==> !EnclosedAt(s, open, close, p', k')
    requires forall k': nat :: k' < k ==> !EnclosedAt(s, open, close, p, k')
    requires forall p': nat, k': nat :: p' < q.0 ==> !EnclosedAt(s, open, close, p', k')
    requires forall k': nat :: k' < q.1 ==> !EnclosedAt(s, open, close, q.0, k')
    ensures q == (p, k)
  {
  }

  /** The group is `s[p + 1..k]` whenever `(p, k)` is the first match. */
  lemma GroupIs(s: string, open: char, close: char, p: nat, k: nat)
    requires EnclosedAt(s, open, close, p, k)
    requires forall p': nat, k': nat :: p' < p ==> !EnclosedAt(s, open, close, p', k')
    requires forall k': nat :: k' < k ==> !EnclosedAt(s, open, close, p, k')
    ensures Group(s, open, close) == Some(s[p + 1..k])
  {
    var r := FirstEnclosed(s, open, close, 0);
    LeastEnclosedUnique(s, open, close, p, k, r.value);
  }

  /** A file message links the text of the first `[...]` to the text of the first
      `(...)`: later pairs never show. */
  lemma RendersFirstPairs(s: string, p: nat, k: nat, q: nat, l: nat)
    requires EnclosedAt(s, '(', ')', p, k)
    requires forall p': nat, k': nat :: p' < p ==> !EnclosedAt(s, '(', ')', p', k')
    requires forall k': nat :: k' < k ==> !EnclosedAt(s, '(', ')', p, k')
    requires EnclosedAt(s, '[', ']', q, l)
    requires forall q': nat, l': nat :: q' < q ==> !EnclosedAt(s, '[', ']', q', l')
    requires forall l': nat :: l' < l ==> !EnclosedAt(s, '[', ']', q, l')
    ensures Render(true, Some(s)) == Link(s[q + 1..l], s[p + 1..k])
  {
    GroupIs(s, '(', ')', p, k);
    GroupIs(s, '[', ']', q, l);
  }

  /** Round trip: a file message built by an input decodes to its name and url, when the
      name has no `(`, `]` or line break and the url no `)` or line break (both may be empty). */
  lemma {:induction false} DecodeEncodeRoundTrip(fileName: string, url: string)
    requires Carries(fileName, {'(', ']'})
    requires Carries(url, {')'})
    ensures Render(true, Some(Encode(fileName, url))) == Link(fileName, url)
  {
    HrefOfEncoding(fileName, url);
    TextOfEncoding(fileName, url);
  }

  /** The only `(` before the url is the one after `]`: the first `(...)` is the url. */
  lemma HrefOfEncoding(fileName: string, url: string)
    requires Carries(fileName, {'(', ']'})
    requires Carries(url, {')'})
    ensures Group(Encode(fileName, url), '(', ')') == Some(url)
  {
    var s := Encode(fileName, url);
    var e := 3 + |fileName|;
    var h := e + 1;
    assert EnclosedAt(s, '(', ')', h, |s| - 1) by {
      forall m | h < m < |s| - 1 ensures !IsLineTerminator(s[m]) {
        assert s[m] == url[m - e - 2];
      }
    }
    forall p': nat, k': nat | p' < h ensures !EnclosedAt(s, '(', ')', p', k') {
      if 3 <= p' < e {
        assert s[p'] == fileName[p' - 3];
      }
    }
    forall k': nat | k' < |s| - 1 ensures !EnclosedAt(s, '(', ')', h, k') {
      if h < k' < |s| - 1 {
        assert s[k'] == url[k' - e - 2];
      }
    }
    GroupIs(s, '(', ')', h, |s| - 1);
  }

  /** The first `[...]` runs from the `[` of the opening to the `]` that ends the name. */
  lemma TextOfEncoding(fileName: string, url: string)
    requires Carries(fileName, {']'})
    ensures Group(Encode(fileName, url), '[', ']') == Some(fileName)
  {
    var s := Encode(fileName, url);
    var e := 3 + |fileName|;
    assert EnclosedAt(s, '[', ']', 2, e) by {
      forall m | 2 < m < e ensures !IsLineTerminator(s[m]) {
        assert s[m] == fileName[m - 3];
      }
    }
    forall k': nat | k' < e ensures !EnclosedAt(s, '[', ']', 2, k') {
      if 2 < k' < e {
        assert s[k'] == fileName[k' - 3];
      }
    }
    GroupIs(s, '[', ']', 2, e);
  }

  /** Without `isFile` the content is shown as it is, whatever it holds. */
  lemma PlainWhenNotFile(content: Option<string>)
    ensures Render(false, content) == Shown(content)
  {
  }

  /** A content without brackets, flagged as a file, makes the row throw. */
  lemma MissingPairThrows(s: string)
    requires '[' !in s
    ensures Render(true, Some(s)) == Throws
  {
  }

  /** A `(` in the name moves the href: `a(1).png` with url `u` links to `1`. */
  lemma ParenthesisInNameBreaksRoundTrip()
    ensures Render(true, Some(Encode("a(1).png", "u"))) == Link("a(1).png", "1")
  {
    HrefOfParenthesisName();
    TextOfParenthesisName();
  }

  /** The first `(...)` of that content is the `(1)` inside the name. */
  lemma HrefOfParenthesisName()
    ensures Group(Encode("a(1).png", "u"), '(', ')') == Some("1")
  {
    var s := Encode("a(1).png", "u");
    assert s[3] == 'a' && s[4] == '(' && s[5] == '1' && s[6] == ')';
    assert EnclosedAt(s, '(', ')', 4, 6);
    GroupIs(s, '(', ')', 4, 6);
    assert s[5..6] == "1";
  }

  /** The first `[...]` of that content is the whole name. */
  lemma TextOfParenthesisName()
    ensures Group(Encode("a(1).png", "u"), '[', ']') == Some("a(1).png")
  {
    var s := Encode("a(1).png", "u");
    assert EnclosedAt(s, '[', ']', 2, 11);
    forall k': nat | k' < 11 ensures !EnclosedAt(s, '[', ']', 2, k') {
      if 2 < k' < 11 {
        assert s[k'] == "a(1).png"[k' - 3];
      }
    }
    GroupIs(s, '[', ']', 2, 11);
  }
}
