/** The content a message input sends for an uploaded file: `📁 [fileName](url)`. */
module FileContent {
  import opened Text

  /** U+1F4C1 FILE FOLDER. */
  const Folder: char := '\U{1F4C1}'

  /** What opens a file link: the folder, a space and `[`. */
  const Opening: string := [Folder, ' ', '[']

  /** The template literal of both message inputs, laid out position by position: the
      decoders' proofs read the name and url back from these positions. */
  function Encode(fileName: string, url: string): (s: string)
    ensures |s| == |fileName| + |url| + 6
    ensures s[0] == Folder && s[1] == ' ' && s[2] == '['
    ensures s[3..3 + |fileName|] == fileName
    ensures s[3 + |fileName|] == ']' && s[4 + |fileName|] == '('
    ensures s[5 + |fileName|..5 + |fileName| + |url|] == url
    ensures s[|s| - 1] == ')'
  {
    Opening + fileName + "](" + url + ")"
  }

  /** A name or url the encoding can carry: no character of `forbidden` and no line break. */
  predicate Carries(t: string, forbidden: set<char>) {
    forall i :: 0 <= i < |t| ==> t[i] !in forbidden && !IsLineTerminator(t[i])
  }
}
