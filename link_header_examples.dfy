/**
 * The cursor resolver on concrete headers: the upstream example of a
 * prev/next/first/last header, the empty header, and the malformed entries
 * it skips.
 */
module LinkHeaderExamples {
  import opened GoStrings
  import opened LinkHeader

  /** One `<url>; rel` entry as GitLab writes it. */
  function LinkEntry(url: string, rel: string): string {
    "<" + url + ">" + ";" + " " + rel
  }

  /** A URL as GitLab puts it between angle brackets. */
  predicate PlainUrl(url: string) {
    url != [] && ',' !in url && ';' !in url && TrimmedOfDelimiters(url) && !IsSpace(url[0]) && !IsSpace(url[|url| - 1])
  }

  predicate PlainRel(rel: string) {
    rel != [] && ',' !in rel && ';' !in rel && !IsSpace(rel[0]) && !IsSpace(rel[|rel| - 1])
  }

  lemma LinkEntryShape(lead: string, url: string, rel: string)
    ensures lead + LinkEntry(url, rel) == (lead + "<" + url + ">") + [';'] + (" " + rel)
  {
  }

  lemma EntryParts(lead: string, url: string, rel: string)
    requires ';' !in lead && ';' !in url && ';' !in rel
    ensures Split(lead + LinkEntry(url, rel), ';') == [lead + "<" + url + ">", " " + rel]
  {
    LinkEntryShape(lead, url, rel);
    SplitAfterPiece(lead + "<" + url + ">", ';', " " + rel);
    SplitWithoutSeparator(" " + rel, ';');
  }

  lemma TrimSpaceAfterBlank(lead: string, s: string)
    requires forall i | 0 <= i < |lead| :: IsSpace(lead[i])
    requires s != [] && !IsSpace(s[0]) && !IsSpace(s[|s| - 1])
    ensures TrimSpace(lead + s) == s
  {
    TrimLeftSkips(lead, s, IsSpace);
  }

  lemma {:induction false} TrimLeftSkips(lead: string, s: string, cut: char -> bool)
    requires forall i | 0 <= i < |lead| :: cut(lead[i])
    requires s != [] && !cut(s[0])
    ensures TrimLeft(lead + s, cut) == s
    decreases |lead|
  {
    if lead == [] {
      assert lead + s == s;
    } else {
      var t := lead + s;
      assert t[0] == lead[0];
      assert t[1..] == lead[1..] + s;
      TrimLeftSkips(lead[1..], s, cut);
    }
  }

  /** An entry is a next entry exactly when its relation text is `rel="next"`. */
  lemma EntryRelation(lead: string, url: string, rel: string)
    requires ';' !in lead && ';' !in url && PlainRel(rel)
    ensures IsNextEntry(lead + LinkEntry(url, rel)) <==> rel == RelNext
  {
    EntryParts(lead, url, rel);
    TrimSpaceAfterBlank(" ", rel);
  }

  /** The target of an entry is the URL between its angle brackets. */
  lemma EntryURL(lead: string, url: string, rel: string)
    requires forall i | 0 <= i < |lead| :: IsSpace(lead[i])
    requires ';' !in lead && PlainUrl(url) && ';' !in rel
    ensures EntryTarget(lead + LinkEntry(url, rel)) == url
  {
    EntryParts(lead, url, rel);
    BracketedShape(lead, url);
    TrimSpaceAfterBlank(lead, "<" + url + ">");
    TrimDropsEnds('<', url, '>', IsUrlDelimiter);
    TrimUnchanged(url, IsUrlDelimiter);
  }

  lemma BracketedShape(lead: string, url: string)
    ensures lead + "<" + url + ">" == lead + ("<" + url + ">")
    ensures "<" + url + ">" == ['<'] + url + ['>']
  {
  }

  /** The header GitLab sends for a middle page: prev, next, first and last links. */
  function FourLinks(prev: string, next: string, first: string, last: string): string {
    LinkEntry(prev, "rel=\"prev\"") + "," + " " + LinkEntry(next, "rel=\"next\"") + "," + " "
    + LinkEntry(first, "rel=\"first\"") + "," + " " + LinkEntry(last, "rel=\"last\"")
  }

  function FourEntries(prev: string, next: string, first: string, last: string): seq<string> {
    [LinkEntry(prev, "rel=\"prev\""), " " + LinkEntry(next, "rel=\"next\""),
     " " + LinkEntry(first, "rel=\"first\""), " " + LinkEntry(last, "rel=\"last\"")]
  }

  lemma FourLinksJoined(prev: string, next: string, first: string, last: string)
    ensures FourLinks(prev, next, first, last) == Join(FourEntries(prev, next, first, last), ',')
  {
    var es := FourEntries(prev, next, first, last);
    assert Join(es[3..], ',') == es[3];
    assert Join(es[2..], ',') == es[2] + "," + es[3] by { assert es[2..][1..] == es[3..]; }
    assert Join(es[1..], ',') == es[1] + "," + es[2] + "," + es[3] by { assert es[1..][1..] == es[2..]; }
  }

  lemma NoCommaInEntry(lead: string, url: string, rel: string)
    requires ',' !in lead && ',' !in url && ',' !in rel
    ensures ',' !in lead + LinkEntry(url, rel)
  {
  }

  lemma FourLinksEntries(prev: string, next: string, first: string, last: string)
    requires PlainUrl(prev) && PlainUrl(next) && PlainUrl(first) && PlainUrl(last)
    ensures Entries(FourLinks(prev, next, first, last)) == FourEntries(prev, next, first, last)
  {
    var es := FourEntries(prev, next, first, last);
    NoCommaInEntry("", prev, "rel=\"prev\"");
    assert "" + LinkEntry(prev, "rel=\"prev\"") == es[0];
    NoCommaInEntry(" ", next, "rel=\"next\"");
    NoCommaInEntry(" ", first, "rel=\"first\"");
    NoCommaInEntry(" ", last, "rel=\"last\"");
    FourLinksJoined(prev, next, first, last);
    SplitJoin(es, ',');
  }

  /** For a prev/next/first/last header the next link is the result. */
  lemma FourLinksNext(prev: string, next: string, first: string, last: string)
    requires PlainUrl(prev) && PlainUrl(next) && PlainUrl(first) && PlainUrl(last)
    ensures NextGitlabPage(FourLinks(prev, next, first, last)) == next
  {
    var es := FourEntries(prev, next, first, last);
    FourLinksEntries(prev, next, first, last);
    assert "" + LinkEntry(prev, "rel=\"prev\"") == es[0];
    EntryRelation("", prev, "rel=\"prev\"");
    assert "rel=\"prev\""[5] != RelNext[5];
    EntryRelation(" ", next, "rel=\"next\"");
    EntryURL(" ", next, "rel=\"next\"");
    NextPageIsFirstNextEntry(FourLinks(prev, next, first, last), 1);
  }

  const Host: string := "https://gitlab.example.com"
  const NotesPath: string := "/api/v4/projects/8/issues/8/notes"
  const Query1: string := "?page=1&per_page=3"
  const Query3: string := "?page=3&per_page=3"
  const Page1: string := Host + NotesPath + Query1
  const Page3: string := Host + NotesPath + Query3

  /** No piece of the example URLs holds a ',' or a ';'. */
  lemma HostIsPlain()
    ensures ',' !in Host && ';' !in Host
  {
  }

  lemma NotesPathIsPlain()
    ensures ',' !in NotesPath && ';' !in NotesPath
  {
  }

  lemma QueriesArePlain()
    ensures ',' !in Query1 && ';' !in Query1 && ',' !in Query3 && ';' !in Query3
  {
  }

  lemma PlainPages()
    ensures PlainUrl(Page1) && PlainUrl(Page3)
  {
    HostIsPlain();
    NotesPathIsPlain();
    QueriesArePlain();
    assert Page1[0] == Host[0] == 'h';
    assert Page3[0] == Host[0];
    assert Page1[|Page1| - 1] == Query1[|Query1| - 1] == '3';
    assert Page3[|Page3| - 1] == Query3[|Query3| - 1] == '3';
  }

  lemma UpstreamExample()
    ensures NextGitlabPage(FourLinks(Page1, Page3, Page1, Page3)) == Page3
  {
    PlainPages();
    FourLinksNext(Page1, Page3, Page1, Page3);
  }

  /** The header of the last page (or of an unpaginated response) is empty: no further page. */
  lemma EmptyHeaderHasNoNextPage()
    ensures NextGitlabPage("") == ""
  {
    assert Split("", ',') == [""];
    assert Split("", ';') == [""];
    NoNextEntryMeansNoPage("");
  }

  /** An entry without any `;` (such as a bare `<url>`) is never a next entry. */
  lemma EntryWithoutParametersSkipped(link: string)
    requires ';' !in link
    ensures !IsNextEntry(link)
  {
    SplitWithoutSeparator(link, ';');
  }

  /** An entry with a parameter after the relation (`<url>; rel="next"; type=x`) is never a next entry. */
  lemma EntryWithExtraParameterSkipped(target: string, rel: string, param: string)
    requires ';' !in target && ';' !in rel
    ensures !IsNextEntry(target + ";" + rel + ";" + param)
  {
    ExtraParameterShape(target, rel, param);
    SplitAfterPiece(target, ';', rel + ";" + param);
    SplitAfterPiece(rel, ';', param);
  }

  lemma ExtraParameterShape(target: string, rel: string, param: string)
    ensures target + ";" + rel + ";" + param == target + [';'] + (rel + [';'] + param)
    ensures rel + ";" + param == rel + [';'] + param
  {
  }

  /** The relation must read exactly `rel="next"`: no unquoted or upper-case variant matches. */
  lemma RelationIsCaseSensitive(url: string)
    requires ';' !in url
    ensures !IsNextEntry(LinkEntry(url, "rel=next"))
    ensures !IsNextEntry(LinkEntry(url, "REL=\"next\""))
  {
    assert "" + LinkEntry(url, "rel=next") == LinkEntry(url, "rel=next");
    assert "" + LinkEntry(url, "REL=\"next\"") == LinkEntry(url, "REL=\"next\"");
    EntryRelation("", url, "rel=next");
    assert |"rel=next"| != |RelNext|;
    EntryRelation("", url, "REL=\"next\"");
    assert "REL=\"next\""[0] != RelNext[0];
  }

  /** When two entries are marked next, the first one wins. */
  lemma FirstOfTwoNextEntriesWins(a: string, b: string)
    requires PlainUrl(a) && PlainUrl(b)
    ensures NextGitlabPage(LinkEntry(a, RelNext) + ", " + LinkEntry(b, RelNext)) == a
  {
    var x, y := LinkEntry(a, RelNext), " " + LinkEntry(b, RelNext);
    CommaSpaceShape(x, LinkEntry(b, RelNext));
    assert "" + x == x;
    NoCommaInEntry("", a, RelNext);
    NoCommaInEntry(" ", b, RelNext);
    TwoEntries(x, y);
    EntryRelation("", a, RelNext);
    EntryURL("", a, RelNext);
    NextPageIsFirstNextEntry(x + "," + y, 0);
  }

  lemma CommaSpaceShape(x: string, z: string)
    ensures x + ", " + z == x + "," + (" " + z)
  {
  }

  lemma TwoEntries(x: string, y: string)
    requires ',' !in x && ',' !in y
    ensures Entries(x + "," + y) == [x, y]
  {
    TwoEntriesJoined(x, y);
    SplitJoin([x, y], ',');
  }

  lemma TwoEntriesJoined(x: string, y: string)
    ensures x + "," + y == Join([x, y], ',')
  {
    assert [x, y][1..] == [y];
  }
}
