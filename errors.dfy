/** The ways in which one operator's processing aborts the whole run. */
module Errors {

  datatype ScrapeError =
    /** The preloaded-state pattern found nothing on the operator's detail page. */
    | NoMatch(slug: string)
    /** A loadout entry carries a `weaponType` outside the four known tags. */
    | UnknownWeaponType(weaponType: string, title: string, slug: string)
    /** Indexing the payload by `key` failed (a `KeyError` or `TypeError` in Python). */
    | LookupFailed(key: string)

  const NoMatchPrefix: string := "No match found for "
  const UnknownPrefix: string := "Unknown weapon type ("
  const UnknownOf: string := ") of "
  const UnknownFor: string := " for "

  /** The message the raised exception carries. */
  function Message(e: ScrapeError): (m: string)
    ensures e.NoMatch? ==> |m| == |NoMatchPrefix| + |e.slug| && m[..|NoMatchPrefix|] == NoMatchPrefix
    ensures e.UnknownWeaponType? ==> |m| > |UnknownPrefix| && m[..|UnknownPrefix|] == UnknownPrefix
    ensures e.LookupFailed? ==> |m| == |e.key| + 2 && m[0] == '\'' && m[1..|m| - 1] == e.key && m[|m| - 1] == '\''
  {
    match e
    case NoMatch(slug) => NoMatchPrefix + slug
    case UnknownWeaponType(t, title, slug) => UnknownPrefix + t + UnknownOf + title + UnknownFor + slug
    case LookupFailed(key) => "'" + key + "'"
  }

  /** The unknown-type message names the offending type, the entry's title and the
      operator's slug, each at a fixed place. */
  lemma UnknownWeaponTypeMessage(t: string, title: string, slug: string)
    ensures var m := Message(UnknownWeaponType(t, title, slug));
      var p := |UnknownPrefix|;
      var q := p + |t| + |UnknownOf|;
      && |m| == q + |title| + |UnknownFor| + |slug|
      && m[..p] == UnknownPrefix
      && m[p..p + |t|] == t
      && m[q..q + |title|] == title
      && m[|m| - |slug|..] == slug
  {
  }

  /** The no-match message ends with the slug. */
  lemma NoMatchMessage(slug: string)
    ensures var m := Message(NoMatch(slug));
      m[..|NoMatchPrefix|] == NoMatchPrefix && m[|NoMatchPrefix|..] == slug
  {
  }
}
