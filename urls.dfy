/** The detail-page URL of an operator card and the slug cut from it. */
module Urls {

  /** The site origin prefixed to a card's `href`. */
  const Origin: string := "https://www.ubisoft.com"

  /** The path separator the slug is split on. */
  const Sep: char := '/'

  /** The detail-page URL of a card: the origin followed by the card's link. */
  function DetailUrl(href: string): (url: string)
    ensures |url| == |Origin| + |href|
    ensures url[..|Origin|] == Origin && url[|Origin|..] == href
  {
    Origin + href
  }

  /** Python's `s.split(sep)` for a one-character separator: the maximal runs between
      separators, always at least one (possibly empty) part. */
  function Split(s: string, sep: char): (parts: seq<string>)
    ensures |parts| >= 1
    ensures forall k :: 0 <= k < |parts| ==> sep !in parts[k]
    decreases |s|
  {
    if |s| == 0 then [""]
    else
      var init := Split(s[..|s| - 1], sep);
      var c := s[|s| - 1];
      if c == sep then init + [""]
      else init[..|init| - 1] + [init[|init| - 1] + [c]]
  }

  /** Python's `sep.join(parts)`. */
  function Join(parts: seq<string>, sep: char): string
    requires |parts| >= 1
    decreases |parts|
  {
    if |parts| == 1 then parts[0]
    else Join(parts[..|parts| - 1], sep) + [sep] + parts[|parts| - 1]
  }

  lemma {:induction false} JoinExtendLast(parts: seq<string>, c: char, sep: char)
    requires |parts| >= 1
    ensures Join(parts[..|parts| - 1] + [parts[|parts| - 1] + [c]], sep) == Join(parts, sep) + [c]
  {
    var n := |parts|;
    var q := parts[..n - 1] + [parts[n - 1] + [c]];
    if n > 1 {
      assert q[..n - 1] == parts[..n - 1];
      assert q[n - 1] == parts[n - 1] + [c];
    }
  }

  /** Joining the parts of a split gives back the string. */
  lemma {:induction false} JoinSplit(s: string, sep: char)
    ensures Join(Split(s, sep), sep) == s
    decreases |s|
  {
    if |s| > 0 {
      var init := Split(s[..|s| - 1], sep);
      JoinSplit(s[..|s| - 1], sep);
      assert s == s[..|s| - 1] + [s[|s| - 1]];
      if s[|s| - 1] == sep {
        assert (init + [""])[..|init|] == init;
      } else {
        JoinExtendLast(init, s[|s| - 1], sep);
      }
    }
  }

  lemma {:induction false} SplitPlain(y: string, sep: char)
    requires sep !in y
    ensures Split(y, sep) == [y]
    decreases |y|
  {
    if |y| > 0 {
      SplitPlain(y[..|y| - 1], sep);
      assert y == y[..|y| - 1] + [y[|y| - 1]];
    }
  }

  lemma {:induction false} SplitAfter(x: string, y: string, sep: char)
    requires sep !in y
    ensures Split(x + [sep] + y, sep) == Split(x, sep) + [y]
    decreases |y|
  {
    var s := x + [sep] + y;
    if |y| == 0 {
      assert s[..|s| - 1] == x;
    } else {
      var y' := y[..|y| - 1];
      assert s[..|s| - 1] == x + [sep] + y';
      SplitAfter(x, y', sep);
      assert y == y' + [y[|y| - 1]];
    }
  }

  /** Splitting a join of separator-free parts gives back the parts. */
  lemma {:induction false} SplitJoin(parts: seq<string>, sep: char)
    requires |parts| >= 1
    requires forall k :: 0 <= k < |parts| ==> sep !in parts[k]
    ensures Split(Join(parts, sep), sep) == parts
    decreases |parts|
  {
    var n := |parts|;
    if n == 1 {
      SplitPlain(parts[0], sep);
    } else {
      SplitAfter(Join(parts[..n - 1], sep), parts[n - 1], sep);
      SplitJoin(parts[..n - 1], sep);
      assert parts == parts[..n - 1] + [parts[n - 1]];
    }
  }

  lemma LastJoined(parts: seq<string>, sep: char)
    requires |parts| >= 1
    ensures var s := Join(parts, sep);
      var l := parts[|parts| - 1];
      && |l| <= |s| && s[|s| - |l|..] == l
      && (|l| == |s| || s[|s| - |l| - 1] == sep)
  {
  }

  /** The operator's slug, `url.split("/")[-1]`: the text after the last `/` of the
      URL (the whole URL when it has none). */
  function Slug(url: string): (slug: string)
    ensures Sep !in slug
    ensures |slug| <= |url| && url[|url| - |slug|..] == slug
    ensures |slug| == |url| || url[|url| - |slug| - 1] == Sep
  {
    var parts := Split(url, Sep);
    JoinSplit(url, Sep);
    LastJoined(parts, Sep);
    parts[|parts| - 1]
  }

  /** The three properties of Slug's contract determine it: any separator-free
      suffix that is the whole URL or follows a separator is the slug. */
  lemma SlugUnique(url: string, t: string)
    requires Sep !in t
    requires |t| <= |url| && url[|url| - |t|..] == t
    requires |t| == |url| || url[|url| - |t| - 1] == Sep
    ensures t == Slug(url)
  {
    var s := Slug(url);
    var n := |url|;
    forall i | n - |s| <= i < n
      ensures url[i] != Sep
    {
      assert url[i] == s[i - (n - |s|)];
    }
    forall i | n - |t| <= i < n
      ensures url[i] != Sep
    {
      assert url[i] == t[i - (n - |t|)];
    }
  }

  /** The slug of a card's detail URL is the slug of its link whenever the link holds
      a `/`; a link without one glues the host name onto the slug. */
  lemma SlugOfDetailUrl(href: string)
    ensures Sep in href ==> Slug(DetailUrl(href)) == Slug(href)
    ensures Sep !in href ==> Slug(DetailUrl(href)) == "www.ubisoft.com" + href
  {
    var url := DetailUrl(href);
    var n := |url|;
    if Sep in href {
      var t := Slug(href);
      forall i | |href| - |t| <= i < |href|
        ensures href[i] != Sep
      {
        assert href[i] == t[i - (|href| - |t|)];
      }
      assert url[n - |t|..] == href[|href| - |t|..];
      assert url[n - |t| - 1] == href[|href| - |t| - 1];
      SlugUnique(url, t);
    } else {
      var t := "www.ubisoft.com" + href;
      assert url == "https://" + t;
      assert url[n - |t|..] == t;
      assert url[n - |t| - 1] == '/';
      SlugUnique(url, t);
    }
  }
}
