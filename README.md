# siegedata operator scraper — Dafny model

`scrapeops.py` scrapes the Rainbow Six Siege operator list in two steps.
1. It reads every operator card on the index page: display name, banner, icon and link.
2. For each operator it parses the JSON state embedded in the detail page and reshapes it into one output record.

This project models the pure transformation inside `main` and proves what it guarantees.

- **Urls** (`urls.dfy`): the detail URL is the site origin `https://www.ubisoft.com` followed by the card's `href`.
  - The slug is `url.split("/")[-1]`: the text after the last `/`.
  - `str.split` is modelled with `Split`, proved to round-trip with `Join`.
  - The lemmas prove that the slug has no `/`, is a suffix of the URL, and is the only suffix with those properties.
  - One edge case: a link without a `/` makes the slug `www.ubisoft.com<href>`.
- **Loadouts** (`loadout.dfy`): the classification loop, as the method `ClassifyLoadout`.
  - The method walks `loadout` in order. It appends each entry's `{name, subtype, image}` record to the primary, secondary or gadget list, overwrites the single `unique` slot, or raises on an unknown `weaponType`.
  - It is proved equal to `Classify`, a reference definition built from `Bucket` (tagged entries in payload order), `LastUnique` (the last unique ability) and `FirstUnknown` (the first entry with an unknown tag).
  - The lemmas about these give the properties:
    - every tagged entry lands once, at its rank, in its own bucket;
    - each bucket is exactly its tagged entries, in order;
    - the three lists together hold every entry that is not a unique ability;
    - the last unique ability wins, or the slot stays the empty mapping;
    - an unknown tag yields the error for the first such entry, naming its type, its title and the slug.
- **Records** (`records.dfy`) builds the `info` block:
  - `name` is the slug and `pretty_name` is the card name.
  - `side` is `attacker` exactly when `header.isAttacker` is truthy in Python's sense.
  - `banner`, `icon` and `url` are copied from the summary, and the header fields are copied as they are.
  - `biography` is None when the biography section is falsy; `squad` is None when the key is absent.

  It also defines the per-operator outcome (`Process`, with the method `ProcessOperator`). Errors come in source order: no match on the page, then an unknown loadout tag, then a failed biography lookup.
- **Pipeline** (`pipeline.dfy`): the card loop and the operator loop.
  - On success there is exactly one record per card, in page order.
  - On failure the error is the first failing operator's, and no records are returned.
- **Errors** (`errors.dfy`) and **Json** (`json.dfy`): the error kinds with their messages, and the decoded JSON leaf values with Python truthiness.

Downloading a detail page and searching it for `__PRELOADED_STATE__` is a parameter: `fetch: string -> Option<Content>`. `None` stands for the "No match found" outcome. `Some(content)` is the navigated `content` payload.

## Model

| member | source | states |
|---|---|---|
| `Urls.DetailUrl` | scrapeops.py:33 | the detail URL starts with the site origin and the rest of it is the card's `href` |
| `Urls.Split` | scrapeops.py:39 | `split("/")` gives at least one part and no part contains the separator |
| `Urls.JoinSplit` | scrapeops.py:39 | joining the parts of a split with the separator gives back the string |
| `Urls.SplitJoin` | scrapeops.py:39 | splitting a join of separator-free parts gives back the parts |
| `Urls.Slug` | scrapeops.py:39 | the slug has no `/`, is a suffix of the URL, and is the whole URL or follows a `/` |
| `Urls.SlugUnique` | scrapeops.py:39 | any suffix with Slug's three properties equals the slug, so the contract determines the last segment |
| `Urls.SlugOfDetailUrl` | scrapeops.py:33-39 | the slug of the detail URL is the slug of the `href` when the `href` holds a `/`, and otherwise the host name glued to the `href` |
| `Json.Truthy` | scrapeops.py:82-91 | Python truthiness: a decoded value is truthy exactly when it is not null, `false`, `0`, the empty string, the empty list or the empty object |
| `Errors.Message` | scrapeops.py:44-75 | the no-match message starts with `No match found for ` and is that long plus the slug; the unknown-type message starts with `Unknown weapon type (`; a failed lookup reads as the quoted key, as `KeyError` renders it |
| `Errors.UnknownWeaponTypeMessage` | scrapeops.py:72-75 | the unknown-type message holds the type, the entry title and the slug, each at a fixed offset |
| `Errors.NoMatchMessage` | scrapeops.py:44-45 | the no-match message is `No match found for ` followed by the slug |
| `Loadouts.ToRecord` | scrapeops.py:57-61 | `name` is the title; `image` is the image object's URL; `subtype` is the entry's subtype, or None exactly when there is none |
| `Loadouts.FirstUnknown` | scrapeops.py:63-75 | when some tag is unknown, the index found has an unknown tag and every earlier tag is known |
| `Loadouts.ClassifyLoadout` | scrapeops.py:50-75 | the in-order loop over the entries (appending to three lists, overwriting the unique slot, raising on an unknown tag) gives exactly `Classify` |
| `Loadouts.FirstUnknownUnique` | scrapeops.py:72-75 | an unknown-tag entry preceded only by known tags is the entry the loop raises for |
| `Loadouts.ClassifyOutcome` | scrapeops.py:63-75 | classification succeeds exactly when every tag is one of the four; otherwise the error names the first unknown entry's type and title and the slug |
| `Loadouts.BucketPrefix` | scrapeops.py:56-69 | a prefix of the entries fills a prefix of every bucket: appending never reorders |
| `Loadouts.BucketStep` | scrapeops.py:63-69 | one more entry appends its record to its own tag's bucket and leaves every other bucket unchanged |
| `Loadouts.BucketPlacement` | scrapeops.py:63-69 | every entry tagged `t` appears in bucket `t` at position rank (the count of earlier `t` entries) |
| `Loadouts.RankMonotone` | scrapeops.py:56-69 | ranks never decrease along the payload and grow strictly after each tagged entry, so a bucket keeps payload order |
| `Loadouts.BucketOrigin` | scrapeops.py:63-69 | every record in bucket `t` comes from an entry tagged `t`, at that entry's rank, so no entry reaches a bucket of another tag |
| `Loadouts.BucketLength` | scrapeops.py:63-69 | each bucket is as long as the number of entries carrying its tag |
| `Loadouts.PartitionCount` | scrapeops.py:63-71 | with all tags known, the primary, secondary and gadget counts sum to the number of entries that are not unique abilities |
| `Loadouts.ClassifiedPartition` | scrapeops.py:63-71 | after a successful classification the three output lists together are as long as the number of entries that are not unique abilities |
| `Loadouts.LastUniqueNone` | scrapeops.py:53-71 | the unique slot is the empty mapping exactly when no entry is tagged `unique-ability` |
| `Loadouts.LastUniqueSome` | scrapeops.py:70-71 | a filled unique slot holds the record of a `unique-ability` entry that no later `unique-ability` entry follows |
| `Loadouts.OneOfEachTag` | scrapeops.py:50-75 | one entry of each tag gives one-element lists and the ability's record in the unique slot |
| `Loadouts.UniqueLastWins` | scrapeops.py:70-71 | of two unique-ability entries the second is kept |
| `Records.Summarize` | scrapeops.py:30-34 | a list entry keeps the card's name, banner and icon, and its URL is the site origin followed by the card's `href` |
| `Records.BiographyText` | scrapeops.py:90-92 | a falsy biography section gives None; a truthy object section gives its `biography` member; a truthy section without that member fails the lookup |
| `Records.BuildInfo` | scrapeops.py:79-100 | `name` is the slug and `pretty_name` the card name; `side` is `attacker` iff `isAttacker` is truthy, else `defender`; summary fields and header fields are copied; `biography` is None for a falsy section and otherwise the section's `biography`; `squad` is None when absent |
| `Records.Process` | scrapeops.py:39-108 | the outcome for one operator; a produced record's `name` is the slug of the operator's URL, and its `pretty_name`, `url`, `banner` and `icon` come from the list entry |
| `Records.ProcessOutcome` | scrapeops.py:39-108 | failures come in source order: no match, then an unknown tag (its classification error), then a biography lookup (`LookupFailed("biography")`); a record's info and loadout are `BuildInfo` and `Classify` of the payload |
| `Records.ProcessOperator` | scrapeops.py:39-108 | one iteration of the operator loop gives exactly `Process` of that operator's page outcome |
| `Pipeline.ListOperators` | scrapeops.py:29-34 | one summary per card, in page order; each keeps the card's fields and makes the URL absolute |
| `Pipeline.ProcessOperators` | scrapeops.py:38-108 | success exactly when every operator succeeds, with one record per operator in list order; otherwise the error of the first failing operator |
| `Pipeline.Run` | scrapeops.py:18-108 | one record per card in card order, whose `name` is the slug of the card's detail URL and whose `pretty_name` and `url` come from the card; otherwise the first failure's error |

## Left out

- HTTP fetching and status checks (`get_page`, the `httpx` client): network I/O. A failed fetch is not an outcome of `fetch`.
- HTML parsing with BeautifulSoup and reading a card's text and attributes, including the `.strip()` of the name: a foreign library. Cards enter the model as `Card` values that are already extracted.
- The regular-expression search for the preloaded state runs over the whole serialised document. Only its outcome is modelled: a payload, or the no-match error.
- JSON decoding, and the walk through `ContentfulGraphQl` and `OperatorDetailsContainer-<slug>` to `content`: a foreign library. The payload is a typed `Content`, so the `KeyError`s of missing payload keys do not arise. The biography lookup is the exception, because the code branches on that section's truthiness.
- Numbers in the payload are integers. Floating point is not modelled, so neither is the truthiness of `0.0`.
- `weaponType` is modelled as a string. Python would also send a non-string value to the error branch.
- `Errors.Message` renders a failed biography lookup as the quoted key, the way `KeyError` does. The `TypeError` text raised for a non-object section is not modelled.
- The key order of the output dictionaries, the serialisation to `data.json`, the progress prints and the `asyncio` entry point: these are I/O and scheduling.
