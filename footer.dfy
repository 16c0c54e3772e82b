/**
 * The footer's link column: each link of the "Company" column points at the
 * page section named by the link text, lower-cased with every whitespace
 * character turned into a hyphen; a link of any other column points at the
 * services section.
 */
module Footer {

  /** The link columns: a title and its link texts. */
  const FooterLinks: seq<(string, seq<string>)> := [("Company", ["Our Work", "Contact"])]

  /** The characters the regular-expression class `\s` matches. */
  predicate IsWhitespace(c: char)
  {
    c == '\t' || c == '\n' || c == '\U{0B}' || c == '\U{0C}' || c == '\r' || c == ' ' ||
    c == '\U{A0}' || c == '\U{1680}' || ('\U{2000}' <= c <= '\U{200A}') ||
    c == '\U{2028}' || c == '\U{2029}' || c == '\U{202F}' || c == '\U{205F}' ||
    c == '\U{3000}' || c == '\U{FEFF}'
  }

  predicate IsUpper(c: char)
  {
    'A' <= c <= 'Z'
  }

  /** Lower-casing of one character (the ASCII letters; every link text is ASCII): a capital becomes the same letter in lower case. */
  function Lower(c: char): (l: char)
    ensures IsUpper(c) ==> 'a' <= l <= 'z' && l as int - 'a' as int == c as int - 'A' as int
    ensures !IsUpper(c) ==> l == c
    ensures !IsUpper(l)
    ensures IsWhitespace(l) <==> IsWhitespace(c)
  {
    if IsUpper(c) then (c as int + 32) as char else c
  }

  /** The section name for a link text: the text lower-cased, with every whitespace character replaced by a hyphen. */
  function Slug(link: string): (s: string)
    ensures |s| == |link|
    ensures forall i :: 0 <= i < |s| && IsWhitespace(link[i]) ==> s[i] == '-'
    ensures forall i :: 0 <= i < |s| && !IsWhitespace(link[i]) ==> s[i] == Lower(link[i])
    ensures forall i :: 0 <= i < |s| ==> !IsWhitespace(s[i]) && !IsUpper(s[i])
    ensures forall i :: 0 <= i < |s| ==> (s[i] == '-' <==> IsWhitespace(link[i]) || link[i] == '-')
  {
    seq(|link|, i requires 0 <= i < |link| =>
      var l := Lower(link[i]);
      if IsWhitespace(l) then '-' else l)
  }

  /** A text with no whitespace and no capitals is its own slug. */
  lemma SlugKeepsSlugs(link: string)
    requires forall i :: 0 <= i < |link| ==> !IsWhitespace(link[i]) && !IsUpper(link[i])
    ensures Slug(link) == link
  {
  }

  /** Making a slug twice changes nothing more. */
  lemma SlugIdempotent(link: string)
    ensures Slug(Slug(link)) == Slug(link)
  {
    SlugKeepsSlugs(Slug(link));
  }

  /** The link target for a link of the column titled `title`. */
  function Href(title: string, link: string): (h: string)
    ensures title != "Company" ==> h == "#services"
    ensures title == "Company" ==> |h| == |link| + 1 && h[0] == '#' && h[1..] == Slug(link)
    ensures title == "Company" ==> forall i :: 1 <= i < |h| ==> !IsWhitespace(h[i])
  {
    if title == "Company" then
      var h := "#" + Slug(link);
      assert h[1..] == Slug(link);
      h
    else "#services"
  }

  /** Using a link's slug as its text gives the same target. */
  lemma HrefOfSlug(link: string)
    ensures Href("Company", Slug(link)) == Href("Company", link)
  {
    SlugIdempotent(link);
  }

  /** The targets of all footer links, column by column. */
  function Hrefs(): (hs: seq<seq<string>>)
    ensures |hs| == |FooterLinks|
  {
    seq(|FooterLinks|, c requires 0 <= c < |FooterLinks| =>
      var (title, links) := FooterLinks[c];
      seq(|links|, i requires 0 <= i < |links| => Href(title, links[i])))
  }

  /** The two Company links point at the "our-work" and "contact" sections. */
  lemma FooterTargets()
    ensures Hrefs() == [["#our-work", "#contact"]]
  {
    OurWorkTarget();
    ContactTarget();
    var column := Hrefs()[0];
    assert FooterLinks[0] == ("Company", ["Our Work", "Contact"]);
    assert column == [Href("Company", "Our Work"), Href("Company", "Contact")];
  }

  lemma OurWorkTarget()
    ensures Href("Company", "Our Work") == "#our-work"
  {
    assert Slug("Our Work") == "our-work";
  }

  lemma ContactTarget()
    ensures Href("Company", "Contact") == "#contact"
  {
    assert Slug("Contact") == "contact";
  }
}
