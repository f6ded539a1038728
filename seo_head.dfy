/**
 * The page head (src/components/seo/SEOHead.tsx): a page title gets the
 * site name appended unless it already mentions it, and that one title is
 * used for the document, Open Graph and Twitter titles.
 */
module SeoHead {
  import opened Common

  const SiteName := "StayFinder"
  const DefaultTitle := "StayFinder - Find Your Perfect Stay"

  /** `fullTitle`: the title as it is when it contains the site name, else the title, ' | ' and the site name. */
  function FullTitle(title: string): (r: string)
    ensures Contains(title, SiteName) ==> r == title
    ensures !Contains(title, SiteName) ==> r == title + " | " + SiteName
  {
    if Contains(title, SiteName) then title else title + " | " + SiteName
  }

  /** The full title always names the site and always begins with the given title. */
  lemma FullTitleNamesSite(title: string)
    ensures Contains(FullTitle(title), SiteName)
    ensures StartsWith(FullTitle(title), title)
  {
    if !Contains(title, SiteName) {
      ContainsSuffix(title + " | ", SiteName);
      assert title + " | " + SiteName == (title + " | ") + SiteName;
      assert (title + " | " + SiteName)[..|title|] == title;
    }
  }

  /** Suffixing twice is suffixing once. */
  lemma FullTitleIdempotent(title: string)
    ensures FullTitle(FullTitle(title)) == FullTitle(title)
  {
    FullTitleNamesSite(title);
  }

  /** The default title already names the site and is left as it is. */
  lemma DefaultTitleUnchanged()
    ensures FullTitle(DefaultTitle) == DefaultTitle
  {
    assert DefaultTitle[0..|SiteName|] == SiteName;
    ContainsAt(DefaultTitle, SiteName, 0);
  }

  /** The head's three titles. `title` is None when the prop is not given. */
  datatype HeadTitles = HeadTitles(document: string, openGraph: string, twitter: string)

  function Titles(title: Option<string>): (h: HeadTitles)
    ensures h.document == h.openGraph == h.twitter
    ensures h.document == FullTitle(if title.Some? then title.value else DefaultTitle)
  {
    var full := FullTitle(if title.Some? then title.value else DefaultTitle);
    HeadTitles(full, full, full)
  }

  /** Without a title prop, every title is the default one. */
  lemma NoTitleGivesDefault()
    ensures Titles(None) == HeadTitles(DefaultTitle, DefaultTitle, DefaultTitle)
  {
    DefaultTitleUnchanged();
  }
}
