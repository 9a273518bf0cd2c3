/** The per-operator record: summary fields from the index card, the `info` block
    built from the detail payload, and the classified loadout. */
module Records {
  import opened Wrappers
  import opened Json
  import opened Errors
  import opened Urls
  import opened Loadouts

  /** The fields read from one operator card of the index page. */
  datatype Card = Card(name: string, banner: string, icon: string, href: string)

  /** One entry of the operator list: display name, two image URLs, detail-page URL. */
  datatype Summary = Summary(name: string, banner: string, icon: string, url: string)

  datatype Ability = Ability(content: Value)

  /** The payload's `header` section; `squad` is None when the key is absent. */
  datatype Header = Header(
    isAttacker: Value,
    ability: Ability,
    realName: Value,
    dateOfBirth: Value,
    placeOfBirth: Value,
    squad: Option<Value>,
    armor: Value,
    speed: Value,
    difficulty: Value,
    roles: Value)

  /** The `content` payload of one operator's detail page. */
  datatype Content = Content(header: Header, biography: Value, loadout: seq<WeaponEntry>)

  datatype Stats = Stats(armor: Value, speed: Value, difficulty: Value)

  /** The output `info` block; `biography` and `squad` are Null for Python's None. */
  datatype Info = Info(
    name: string,
    prettyName: string,
    side: string,
    banner: string,
    icon: string,
    url: string,
    uniqueDescription: Value,
    realName: Value,
    dateOfBirth: Value,
    placeOfBirth: Value,
    biography: Value,
    squad: Value,
    stats: Stats,
    roles: Value)

  datatype OutputRecord = OutputRecord(info: Info, loadout: Loadout)

  const Attacker: string := "attacker"
  const Defender: string := "defender"
  const BiographyKey: string := "biography"

  /** The list entry made from a card: its fields, with the link made absolute. */
  function Summarize(card: Card): (op: Summary)
    ensures op.name == card.name && op.banner == card.banner && op.icon == card.icon
    ensures |op.url| == |Origin| + |card.href|
    ensures op.url[..|Origin|] == Origin && op.url[|Origin|..] == card.href
  {
    Summary(card.name, card.banner, card.icon, DetailUrl(card.href))
  }

  /** `biography.biography` when the biography section is truthy, else None. Indexing a
      truthy section that is not an object holding the key raises. */
  function BiographyText(section: Value): (r: Result<Value, ScrapeError>)
    ensures !Truthy(section) ==> r == Ok(Null)
    ensures Truthy(section) && section.Obj? && BiographyKey in section.members
      ==> r == Ok(section.members[BiographyKey])
    ensures r.Err? <==> Truthy(section) && !(section.Obj? && BiographyKey in section.members)
    ensures r.Err? ==> r.error == LookupFailed(BiographyKey)
  {
    if !Truthy(section) then Ok(Null)
    else
      match section
      case Obj(members) =>
        if BiographyKey in members then Ok(members[BiographyKey]) else Err(LookupFailed(BiographyKey))
      case _ => Err(LookupFailed(BiographyKey))
  }

  /** The `info` block of an operator. */
  function BuildInfo(op: Summary, slug: string, content: Content): (r: Result<Info, ScrapeError>)
    ensures r.Err? <==> BiographyText(content.biography).Err?
    ensures r.Err? ==> r.error == LookupFailed(BiographyKey)
    ensures r.Ok? ==>
      var info := r.value;
      var h := content.header;
      && info.name == slug
      && info.prettyName == op.name
      && (info.side == Attacker || info.side == Defender)
      && (info.side == Attacker <==> Truthy(h.isAttacker))
      && info.banner == op.banner && info.icon == op.icon && info.url == op.url
      && info.uniqueDescription == h.ability.content
      && info.realName == h.realName
      && info.dateOfBirth == h.dateOfBirth
      && info.placeOfBirth == h.placeOfBirth
      && (!Truthy(content.biography) ==> info.biography == Null)
      && (Truthy(content.biography) ==> Ok(info.biography) == BiographyText(content.biography))
      && (h.squad.None? ==> info.squad == Null)
      && (h.squad.Some? ==> info.squad == h.squad.value)
      && info.stats == Stats(h.armor, h.speed, h.difficulty)
      && info.roles == h.roles
  {
    var h := content.header;
    match BiographyText(content.biography)
    case Err(e) => Err(e)
    case Ok(biography) =>
      Ok(Info(
        name := slug,
        prettyName := op.name,
        side := if Truthy(h.isAttacker) then Attacker else Defender,
        banner := op.banner,
        icon := op.icon,
        url := op.url,
        uniqueDescription := h.ability.content,
        realName := h.realName,
        dateOfBirth := h.dateOfBirth,
        placeOfBirth := h.placeOfBirth,
        biography := biography,
        squad := match h.squad case Some(v) => v case None => Null,
        stats := Stats(h.armor, h.speed, h.difficulty),
        roles := h.roles))
  }

  /** What processing one operator yields, given the outcome of searching its detail
      page: None when the preloaded-state pattern matched nothing, else the payload. */
  function Process(op: Summary, page: Option<Content>): (r: Result<OutputRecord, ScrapeError>)
    ensures r.Ok? ==> r.value.info.name == Slug(op.url) && r.value.info.prettyName == op.name
    ensures r.Ok? ==> r.value.info.url == op.url && r.value.info.banner == op.banner && r.value.info.icon == op.icon
  {
    var slug := Slug(op.url);
    match page
    case None => Err(NoMatch(slug))
    case Some(content) =>
      match Classify(content.loadout, slug)
      case Err(e) => Err(e)
      case Ok(loadout) =>
        match BuildInfo(op, slug, content)
        case Err(e) => Err(e)
        case Ok(info) => Ok(OutputRecord(info, loadout))
  }

  /** The order in which one operator's processing can fail, and what a record holds. */
  lemma ProcessOutcome(op: Summary, page: Option<Content>)
    ensures page.None? ==> Process(op, page) == Err(NoMatch(Slug(op.url)))
    ensures page.Some? && !AllKnown(page.value.loadout)
      ==> Process(op, page) == Err(Classify(page.value.loadout, Slug(op.url)).error)
    ensures page.Some? && AllKnown(page.value.loadout) && BiographyText(page.value.biography).Err?
      ==> Process(op, page) == Err(LookupFailed(BiographyKey))
    ensures Process(op, page).Ok? <==>
      page.Some? && AllKnown(page.value.loadout) && BiographyText(page.value.biography).Ok?
    ensures Process(op, page).Ok? ==>
      var rec := Process(op, page).value;
      && Ok(rec.info) == BuildInfo(op, Slug(op.url), page.value)
      && Ok(rec.loadout) == Classify(page.value.loadout, Slug(op.url))
  {
    if page.Some? {
      ClassifyOutcome(page.value.loadout, Slug(op.url));
    }
  }

  /** One iteration of the operator loop: classify the loadout, then build the record.
      It follows Process step by step and differs from it only in running the
      classification loop ClassifyLoadout where Process uses its specification Classify. */
  method ProcessOperator(op: Summary, page: Option<Content>) returns (r: Result<OutputRecord, ScrapeError>)
    ensures r == Process(op, page)
  {
    var slug := Slug(op.url);
    if page.None? {
      return Err(NoMatch(slug));
    }
    var content := page.value;
    var loadout := ClassifyLoadout(content.loadout, slug);
    if loadout.Err? {
      return Err(loadout.error);
    }
    var info := BuildInfo(op, slug, content);
    if info.Err? {
      return Err(info.error);
    }
    r := Ok(OutputRecord(info.value, loadout.value));
  }
}
