/**
 * `nextGitlabPage`: the cursor resolver. It reads the `Link` response header
 * (section 3 of RFC 8288, Web Linking) in a simplified way: the header is split
 * on `,`, each entry on `;`, and the URL of the first entry made of exactly two
 * parts whose second part is `rel="next"` (after trimming white space) is the
 * next page. Its body is textually the same in gitlabEndpoints.go (where it
 * is a method), containerUsage.go and walkAPI.go, so it is modelled once here.
 */
module LinkHeader {
  import opened GoStrings

  const RelNext: string := "rel=\"next\""

  /** The characters `strings.Trim(_, " <>")` removes around a URL. */
  predicate IsUrlDelimiter(c: char) {
    c == ' ' || c == '<' || c == '>'
  }

  /** Neither the first nor the last character is a space or an angle bracket. */
  predicate TrimmedOfDelimiters(url: string) {
    url != [] ==> !IsUrlDelimiter(url[0]) && !IsUrlDelimiter(url[|url| - 1])
  }

  /** The comma-separated entries of a header. */
  function Entries(header: string): seq<string> {
    Split(header, ',')
  }

  /** An entry `<url>; rel="next"` with exactly one `;` and the exact relation text. */
  predicate IsNextEntry(link: string) {
    var parts := Split(link, ';');
    |parts| == 2 && TrimSpace(parts[1]) == RelNext
  }

  /** What the two trims of `EntryTarget` may remove between them. */
  predicate IsBlankOrDelimiter(c: char) {
    IsSpace(c) || IsUrlDelimiter(c)
  }

  /**
   * The URL of an entry: its first `;`-part, white space trimmed, then spaces
   * and angle brackets. It is that part with only white space and delimiters
   * cut from its two ends.
   */
  function EntryTarget(link: string): (url: string)
    ensures TrimmedOfDelimiters(url)
    ensures CutFromEnds(Split(link, ';')[0], url, IsBlankOrDelimiter)
    ensures ';' !in url
    ensures forall c | c in url :: c in link
  {
    var parts := Split(link, ';');
    var blankless := TrimSpace(parts[0]);
    var url := Trim(blankless, IsUrlDelimiter);
    JoinKeepsFirstPiece(parts, ';');
    CutTwice(parts[0], blankless, url);
    assert TrimmedOfDelimiters(url);
    url
  }

  /** Cutting white space and then delimiters cuts only blanks and delimiters. */
  lemma CutTwice(p: string, t: string, u: string)
    requires CutFromEnds(p, t, IsSpace) && CutFromEnds(t, u, IsUrlDelimiter)
    ensures CutFromEnds(p, u, IsBlankOrDelimiter)
  {
    var i: nat :| i + |t| <= |p| && CutAt(p, t, i, IsSpace);
    var j: nat :| j + |u| <= |t| && CutAt(t, u, j, IsUrlDelimiter);
    assert p[i + j..i + j + |u|] == u by {
      assert p[i..i + |t|] == t;
      assert t[j..j + |u|] == u;
      forall m | 0 <= m < |u|
        ensures p[i + j + m] == u[m]
      {
        assert u[m] == t[j + m];
        assert t[j + m] == p[i + j + m];
      }
    }
    forall k | 0 <= k < i + j
      ensures IsBlankOrDelimiter(p[k])
    {
      if k >= i {
        assert p[k] == t[k - i];
      }
    }
    forall k | i + j + |u| <= k < |p|
      ensures IsBlankOrDelimiter(p[k])
    {
      if k < i + |t| {
        assert p[k] == t[k - i];
      }
    }
    assert CutAt(p, u, i + j, IsBlankOrDelimiter);
  }

  /** Every character of the first piece occurs in the joined string. */
  lemma JoinKeepsFirstPiece(parts: seq<string>, sep: char)
    requires |parts| >= 1
    ensures forall c | c in parts[0] :: c in Join(parts, sep)
  {
    if |parts| > 1 {
      assert Join(parts, sep) == parts[0] + ([sep] + Join(parts[1..], sep));
    }
  }

  /** The loop over the entries: the target of the first next entry, or "". */
  function FirstNext(links: seq<string>): (url: string)
    ensures TrimmedOfDelimiters(url)
    ensures ';' !in url
    ensures (forall i | 0 <= i < |links| :: ',' !in links[i]) ==> ',' !in url
  {
    if links == [] then ""
    else if IsNextEntry(links[0]) then
      var url := EntryTarget(links[0]);
      assert TrimmedOfDelimiters(url);
      url
    else
      assert forall i | 0 <= i < |links[1..]| :: links[1..][i] == links[i + 1];
      FirstNext(links[1..])
  }

  /**
   * `nextGitlabPage(header)`: the next-page URL, or "" when there is none. A
   * URL it returns never starts or ends with a space or an angle bracket and
   * holds no `,` or `;`.
   */
  function NextGitlabPage(header: string): (url: string)
    ensures TrimmedOfDelimiters(url)
    ensures ',' !in url && ';' !in url
  {
    FirstNext(Entries(header))
  }

  /** The search returns the target of the first next entry. */
  lemma {:induction false} FirstNextFindsFirst(links: seq<string>, i: nat)
    requires i < |links| && IsNextEntry(links[i])
    requires forall j | 0 <= j < i :: !IsNextEntry(links[j])
    ensures FirstNext(links) == EntryTarget(links[i])
  {
    if i > 0 {
      assert links[1..][i - 1] == links[i];
      assert forall j | 0 <= j < i - 1 :: links[1..][j] == links[j + 1];
      FirstNextFindsFirst(links[1..], i - 1);
    }
  }

  /** The search returns "" when no entry is a next entry. */
  lemma {:induction false} FirstNextFindsNone(links: seq<string>)
    requires forall j | 0 <= j < |links| :: !IsNextEntry(links[j])
    ensures FirstNext(links) == ""
  {
    if links != [] {
      assert forall j | 0 <= j < |links[1..]| :: links[1..][j] == links[j + 1];
      FirstNextFindsNone(links[1..]);
    }
  }

  /** The first entry whose relation is `rel="next"` decides the result; later ones are ignored. */
  lemma NextPageIsFirstNextEntry(header: string, i: nat)
    requires i < |Entries(header)| && IsNextEntry(Entries(header)[i])
    requires forall j | 0 <= j < i :: !IsNextEntry(Entries(header)[j])
    ensures NextGitlabPage(header) == EntryTarget(Entries(header)[i])
  {
    FirstNextFindsFirst(Entries(header), i);
  }

  /** Without a qualifying entry (an empty header, entries lacking `;` or with extra parameters) the result is "". */
  lemma NoNextEntryMeansNoPage(header: string)
    requires forall j | 0 <= j < |Entries(header)| :: !IsNextEntry(Entries(header)[j])
    ensures NextGitlabPage(header) == ""
  {
    FirstNextFindsNone(Entries(header));
  }

  /** Entries after a next entry never change the result: the search stops at the first one. */
  lemma {:induction false} LaterEntriesIgnored(first: seq<string>, later: seq<string>, i: nat)
    requires i < |first| && IsNextEntry(first[i])
    ensures FirstNext(first + later) == FirstNext(first)
  {
    assert (first + later)[0] == first[0];
    if !IsNextEntry(first[0]) {
      assert (first + later)[1..] == first[1..] + later;
      assert first[1..][i - 1] == first[i];
      LaterEntriesIgnored(first[1..], later, i - 1);
    }
  }
}
