/** How a chat bubble shows a message: sender test, avatar and the file-link parser
    (`/📁 \[(.+?)\]\((.+?)\)/` searched anywhere in the content). */
module ChatMessageItem {
  import opened Wrappers
  import opened Text
  import opened Records
  import opened FileContent
  import Avatar

  /** What the bubble shows: a download link, or the content as it is (possibly missing). */
  datatype Rendered = FileLink(fileName: string, href: string) | Plain(content: Option<string>)

  /** The bubble is right-aligned, without avatar, exactly for the viewer's own messages. */
  predicate IsSender(message: ChatMessage, currentUserId: Id) {
    message.senderId == currentUserId
  }

  /** No line terminator in `s[i..j]`: the characters `.` may consume. */
  predicate NoLineBreak(s: string, i: nat, j: nat)
    requires i <= j <= |s|
  {
    forall m :: i <= m < j ==> !IsLineTerminator(s[m])
  }

  /** The regular expression matches `s` with both groups given: the name is `s[a..e]`
      and the url `s[e + 2..k]`, where `a` is just past the opening. */
  predicate LinkBody(s: string, a: nat, e: nat, k: nat) {
    && a < e && e + 2 < k < |s|
    && s[e] == ']' && s[e + 1] == '(' && s[k] == ')'
    && NoLineBreak(s, a, e) && NoLineBreak(s, e + 2, k)
  }

  /** A whole match starting at position `p`. */
  predicate LinkAt(s: string, p: nat, e: nat, k: nat) {
    p + 3 <= |s| && s[p..p + 3] == Opening && LinkBody(s, p + 3, e, k)
  }

  /** The lazy url group: the first `)` at or after `k` (the url then being non-empty),
      provided no line break comes before it. `k - 1` is the first url character
      not yet checked. */
  function UrlEnd(s: string, b: nat, k: nat): (r: Option<nat>)
    requires b < k <= |s| && NoLineBreak(s, b, k - 1)
    requires forall m :: b < m < k ==> s[m] != ')'
    ensures r.Some? ==> k <= r.value < |s| && s[r.value] == ')' && NoLineBreak(s, b, r.value)
    ensures r.Some? ==> forall m :: b < m < r.value ==> s[m] != ')'
    ensures r.None? ==> forall m :: b < m < |s| && s[m] == ')' ==> !NoLineBreak(s, b, m)
    decreases |s| - k
  {
    if k >= |s| then None
    else if IsLineTerminator(s[k - 1]) then None
    else if s[k] == ')' then Some(k)
    else UrlEnd(s, b, k + 1)
  }

  /** The lazy name group: the shortest name `s[a..e]` (from `e` on) after which `](`
      and a url follow. */
  function NameEnd(s: string, a: nat, e: nat): (r: Option<(nat, nat)>)
    requires a < e <= |s| && NoLineBreak(s, a, e - 1)
    requires forall e': nat, k': nat :: a < e' < e ==> !LinkBody(s, a, e', k')
    ensures r.Some? ==> LinkBody(s, a, r.value.0, r.value.1) && e <= r.value.0
    ensures r.Some? ==> forall e': nat, k': nat :: a < e' < r.value.0 ==> !LinkBody(s, a, e', k')
    ensures r.Some? ==> forall k': nat :: k' < r.value.1 ==> !LinkBody(s, a, r.value.0, k')
    ensures r.None? ==> forall e': nat, k': nat :: !LinkBody(s, a, e', k')
    decreases |s| - e
  {
    if e >= |s| then None
    else if IsLineTerminator(s[e - 1]) then None
    else
      var url := if e + 2 < |s| && s[e] == ']' && s[e + 1] == '(' then UrlEnd(s, e + 2, e + 3) else None;
      if url.Some? then Some((e, url.value))
      else NameEnd(s, a, e + 1)
  }

  /** The match at `p`, if the regular expression matches there. */
  function MatchAt(s: string, p: nat): (r: Option<(nat, nat)>)
    ensures r.Some? ==> LinkAt(s, p, r.value.0, r.value.1)
    ensures r.Some? ==> forall e': nat, k': nat :: e' < r.value.0 ==> !LinkAt(s, p, e', k')
    ensures r.Some? ==> forall k': nat :: k' < r.value.1 ==> !LinkAt(s, p, r.value.0, k')
    ensures r.None? ==> forall e': nat, k': nat :: !LinkAt(s, p, e', k')
  {
    if p + 4 <= |s| && s[p..p + 3] == Opening then NameEnd(s, p + 3, p + 4) else None
  }

  /** `s.match(regex)`: the leftmost match, and at that position the one the lazy
      groups reach first. */
  function Search(s: string, p: nat): (r: Option<(nat, nat, nat)>)
    requires forall p': nat, e': nat, k': nat :: p' < p ==> !LinkAt(s, p', e', k')
    ensures r.Some? ==> LinkAt(s, r.value.0, r.value.1, r.value.2)
    ensures r.Some? ==> forall p': nat, e': nat, k': nat :: p' < r.value.0 ==> !LinkAt(s, p', e', k')
    ensures r.Some? ==> forall e': nat, k': nat :: e' < r.value.1 ==> !LinkAt(s, r.value.0, e', k')
    ensures r.Some? ==> forall k': nat :: k' < r.value.2 ==> !LinkAt(s, r.value.0, r.value.1, k')
    ensures r.None? ==> forall p': nat, e': nat, k': nat :: !LinkAt(s, p', e', k')
    decreases |s| - p
  {
    if p >= |s| then None
    else match MatchAt(s, p)
      case Some(ek) => Some((p, ek.0, ek.1))
      case None => Search(s, p + 1)
  }

  /** `renderMessageContent`: a link when the pattern occurs anywhere in the content,
      otherwise the content unchanged. `isFile` plays no part. Both groups are non-empty
      by the pattern, so the `match[1] && match[2]` test never fails on a match. */
  function RenderContent(content: Option<string>): (r: Rendered)
    ensures r.Plain? ==> r.content == content
    ensures r.FileLink? <==> content.Some? && exists p: nat, e: nat, k: nat :: LinkAt(content.value, p, e, k)
    ensures r.FileLink? ==> r.fileName != [] && r.href != []
    ensures r.FileLink? ==> exists p: nat, e: nat, k: nat ::
      && LinkAt(content.value, p, e, k)
      && r.fileName == content.value[p + 3..e] && r.href == content.value[e + 2..k]
  {
    match content
    case None => Plain(None)
    case Some(s) =>
      match Search(s, 0)
      case Some(m) =>
        assert LinkAt(s, m.0, m.1, m.2);
        FileLink(s[m.0 + 3..m.1], s[m.1 + 2..m.2])
      case None => Plain(content)
  }

  /** What a chat bubble shows besides its text. */
  datatype Bubble = Bubble(alignedRight: bool, avatar: Option<string>, senderName: string, body: Rendered)

  /** The whole bubble for a message, its sender (the `sender` include) and the render
      time: the viewer's own messages are right-aligned without avatar; every other
      message carries its sender's cache-busted avatar; the name falls back to "User". */
  function Show(message: ChatMessage, sender: Option<User>, currentUserId: Id, now: nat): (b: Bubble)
    ensures b.alignedRight <==> IsSender(message, currentUserId)
    ensures b.avatar.None? <==> b.alignedRight
    ensures b.avatar.Some? ==> b.avatar.value == Avatar.WithCacheBust(if sender.Some? then sender.value.image else None, now)
    ensures sender.Some? && sender.value.name != "" ==> b.senderName == sender.value.name
    ensures sender.None? || sender.value.name == "" ==> b.senderName == "User"
    ensures b.body == RenderContent(Some(message.content))
  {
    var own := IsSender(message, currentUserId);
    var image := if sender.Some? then sender.value.image else None;
    Bubble(own,
           if own then None else Some(Avatar.WithCacheBust(image, now)),
           if sender.Some? && sender.value.name != "" then sender.value.name else "User",
           RenderContent(Some(message.content)))
  }

  /** Two matches that are each lexicographically least are the same match. */
  lemma LeastMatchUnique(s: string, p: nat, e: nat, k: nat, q: (nat, nat, nat))
    requires LinkAt(s, p, e, k) && LinkAt(s, q.0, q.1, q.2)
    requires forall p': nat, e': nat, k': nat :: p' < p ==> !LinkAt(s, p', e', k')
    requires forall e': nat, k': nat :: e' < e ==> !LinkAt(s, p, e', k')
    requires forall k': nat :: k' < k ==> !LinkAt(s, p, e, k')
    requires forall p': nat, e': nat, k': nat :: p' < q.0 ==> !LinkAt(s, p', e', k')
    requires forall e': nat, k': nat :: e' < q.1 ==> !LinkAt(s, q.0, e', k')
    requires forall k': nat :: k' < q.2 ==> !LinkAt(s, q.0, q.1, k')
    ensures q == (p, e, k)
  {
  }

  /** An encoding standing at `p` in `s` is a match there, the least one at `p`, and its
      groups are the name and url. */
  lemma EncodingMatchesAt(s: string, p: nat, fileName: string, url: string)
    requires p + |fileName| + |url| + 6 <= |s|
    requires s[p..p + |fileName| + |url| + 6] == Encode(fileName, url)
    requires fileName != [] && Carries(fileName, {']'})
    requires url != [] && Carries(url, {')'})
    ensures var e, k := p + 3 + |fileName|, p + 5 + |fileName| + |url|;
      && LinkAt(s, p, e, k)
      && (forall e': nat, k': nat :: e' < e ==> !LinkAt(s, p, e', k'))
      && (forall k': nat :: k' < k ==> !LinkAt(s, p, e, k'))
      && s[p + 3..e] == fileName && s[e + 2..k] == url
  {
    var e, k := p + 3 + |fileName|, p + 5 + |fileName| + |url|;
    EncodingGroupsAt(s, p, fileName, url);
    assert s[p..p + 3] == Opening;
    assert LinkAt(s, p, e, k) by {
      assert s[e] == ']' && s[e + 1] == '(' && s[k] == ')';
      forall m | p + 3 <= m < e ensures !IsLineTerminator(s[m]) {
        assert s[m] == fileName[m - p - 3];
      }
      forall m | e + 2 <= m < k ensures !IsLineTerminator(s[m]) {
        assert s[m] == url[m - e - 2];
      }
    }
    forall e': nat, k': nat | e' < e ensures !LinkAt(s, p, e', k') {
      if p + 3 <= e' {
        assert s[e'] == fileName[e' - p - 3];
      }
    }
    forall k': nat | k' < k ensures !LinkAt(s, p, e, k') {
      if e + 2 <= k' {
        assert s[k'] == url[k' - e - 2];
      }
    }
  }

  /** The name and url sit in `s` at the positions the encoding gives them. */
  lemma EncodingGroupsAt(s: string, p: nat, fileName: string, url: string)
    requires p + |fileName| + |url| + 6 <= |s|
    requires s[p..p + |fileName| + |url| + 6] == Encode(fileName, url)
    ensures s[p] == Folder && s[p + 1] == ' ' && s[p + 2] == '['
    ensures s[p + 3..p + 3 + |fileName|] == fileName
    ensures s[p + 3 + |fileName|] == ']' && s[p + 4 + |fileName|] == '('
    ensures s[p + 5 + |fileName|..p + 5 + |fileName| + |url|] == url
    ensures s[p + 5 + |fileName| + |url|] == ')'
  {
    var enc := Encode(fileName, url);
    forall i | 0 <= i < |enc| ensures s[p + i] == enc[i] {
      assert s[p + i] == s[p..p + |enc|][i];
    }
    forall i | 0 <= i < |fileName| ensures s[p + 3 + i] == fileName[i] {
      assert enc[3 + i] == enc[3..3 + |fileName|][i];
    }
    forall i | 0 <= i < |url| ensures s[p + 5 + |fileName| + i] == url[i] {
      assert enc[5 + |fileName| + i] == enc[5 + |fileName|..5 + |fileName| + |url|][i];
    }
  }

  /** No match starts inside a stretch without a folder character. */
  lemma NoMatchBefore(s: string, p: nat)
    requires p <= |s| && Folder !in s[..p]
    ensures forall p': nat, e': nat, k': nat :: p' < p ==> !LinkAt(s, p', e', k')
  {
    forall p': nat, e': nat, k': nat | p' < p ensures !LinkAt(s, p', e', k') {
      assert s[p'] == s[..p][p'];
      if p' + 3 <= |s| {
        assert s[p'..p' + 3][0] == s[p'];
      }
    }
  }

  /** The link is found wherever it stands: after any text without a folder character,
      whatever follows, the name and url come back when the name is non-empty without
      `]` or line break and the url non-empty without `)` or line break. */
  lemma {:induction false} ParseFindsEncoding(prefix: string, fileName: string, url: string, suffix: string)
    requires Folder !in prefix
    requires fileName != [] && Carries(fileName, {']'})
    requires url != [] && Carries(url, {')'})
    ensures RenderContent(Some(prefix + Encode(fileName, url) + suffix)) == FileLink(fileName, url)
  {
    var enc := Encode(fileName, url);
    Middle(prefix, enc, suffix);
    RenderEncodingAt(prefix + enc + suffix, |prefix|, fileName, url);
  }

  /** An encoding with no folder character before it renders as its own link. */
  lemma RenderEncodingAt(s: string, p: nat, fileName: string, url: string)
    requires p + |fileName| + |url| + 6 <= |s|
    requires s[p..p + |fileName| + |url| + 6] == Encode(fileName, url)
    requires Folder !in s[..p]
    requires fileName != [] && Carries(fileName, {']'})
    requires url != [] && Carries(url, {')'})
    ensures RenderContent(Some(s)) == FileLink(fileName, url)
  {
    var e, k := p + 3 + |fileName|, p + 5 + |fileName| + |url|;
    EncodingMatchesAt(s, p, fileName, url);
    NoMatchBefore(s, p);
    RendersLeastMatch(s, p, e, k);
  }

  /** The link shown is the one `match` returns: the leftmost match, and at its position
      the shortest name and then the shortest url. A later match never shows. */
  lemma RendersLeastMatch(s: string, p: nat, e: nat, k: nat)
    requires LinkAt(s, p, e, k)
    requires forall p': nat, e': nat, k': nat :: p' < p ==> !LinkAt(s, p', e', k')
    requires forall e': nat, k': nat :: e' < e ==> !LinkAt(s, p, e', k')
    requires forall k': nat :: k' < k ==> !LinkAt(s, p, e, k')
    ensures RenderContent(Some(s)) == FileLink(s[p + 3..e], s[e + 2..k])
  {
    SearchFindsLeast(s, p, e, k);
  }

  /** Where `b` stands in `a + b + c`. */
  lemma Middle(a: string, b: string, c: string)
    ensures (a + b + c)[..|a|] == a && (a + b + c)[|a|..|a| + |b|] == b
  {
  }


  /** The lexicographically least match is the one the search returns. */
  lemma SearchFindsLeast(s: string, p: nat, e: nat, k: nat)
    requires LinkAt(s, p, e, k)
    requires forall p': nat, e': nat, k': nat :: p' < p ==> !LinkAt(s, p', e', k')
    requires forall e': nat, k': nat :: e' < e ==> !LinkAt(s, p, e', k')
    requires forall k': nat :: k' < k ==> !LinkAt(s, p, e, k')
    ensures Search(s, 0) == Some((p, e, k))
  {
    LeastMatchUnique(s, p, e, k, Search(s, 0).value);
  }

  /** Round trip: the content a sender builds for a file renders as that file's link. */
  lemma ParseEncodeRoundTrip(fileName: string, url: string)
    requires fileName != [] && Carries(fileName, {']'})
    requires url != [] && Carries(url, {')'})
    ensures RenderContent(Some(Encode(fileName, url))) == FileLink(fileName, url)
  {
    var s := Encode(fileName, url);
    assert s[0..|s|] == s;
    RenderEncodingAt(s, 0, fileName, url);
  }

  /** The groups need at least one character: an empty name leaves the text as it is. */
  lemma EmptyNameStaysPlain()
    ensures RenderContent(Some(Encode("", "x"))) == Plain(Some(Encode("", "x")))
  {
    var s := Encode("", "x");
    forall p: nat, e: nat, k: nat ensures !LinkAt(s, p, e, k) {
    }
  }

  /** Without a match the content is shown unchanged. */
  lemma NoMatchIsPlain(s: string)
    requires forall p: nat, e: nat, k: nat :: !LinkAt(s, p, e, k)
    ensures RenderContent(Some(s)) == Plain(Some(s))
  {
  }

  /** A `]` inside the name can end the name early: the round trip needs its restriction.
      Here the name `a](b` and url `u` come back as `a` and `b](u`. */
  lemma BracketInNameBreaksRoundTrip()
    ensures RenderContent(Some(Encode("a](b", "u"))) == FileLink("a", "b](u")
  {
    var s := Encode("a](b", "u");
    assert |s| == 11;
    assert LinkAt(s, 0, 4, 10) by {
      assert s[4] == ']' && s[5] == '(' && s[10] == ')';
    }
    forall e': nat, k': nat | e' < 4 ensures !LinkAt(s, 0, e', k') {
    }
    forall k': nat | k' < 10 ensures !LinkAt(s, 0, 4, k') {
    }
    var r := Search(s, 0);
    LeastMatchUnique(s, 0, 4, 10, r.value);
    assert s[3..4] == "a";
    assert s[6..10] == "b](u";
  }
}
