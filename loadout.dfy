/** Classification of an operator's loadout entries into the primary, secondary and
    gadget lists and the single unique-ability slot. */
module Loadouts {
  import opened Wrappers
  import opened Errors

  const Primary: string := "primary"
  const Secondary: string := "secondary"
  const Gadget: string := "gadget"
  const UniqueAbility: string := "unique-ability"

  /** The four `weaponType` tags the classifier dispatches on. */
  predicate KnownTag(t: string) {
    t == Primary || t == Secondary || t == Gadget || t == UniqueAbility
  }

  /** The `weaponImage` object of a payload entry. */
  datatype Image = Image(url: string)

  /** One entry of the payload's `loadout` list. `weaponSubtype` is None when the key
      is absent or holds null. */
  datatype WeaponEntry = WeaponEntry(
    title: string,
    weaponType: string,
    weaponSubtype: Option<string>,
    weaponImage: Image)

  /** The `{name, subtype, image}` record written for an entry. */
  datatype WeaponRecord = WeaponRecord(name: string, subtype: Option<string>, image: string)

  /** The output `loadout` block; `unique` is None for the empty mapping `{}`. */
  datatype Loadout = Loadout(
    primary: seq<WeaponRecord>,
    secondary: seq<WeaponRecord>,
    gadgets: seq<WeaponRecord>,
    unique: Option<WeaponRecord>)

  /** The record of one entry: the name is its title, the image the URL of its image
      object, the subtype its subtype or None. */
  function ToRecord(w: WeaponEntry): (r: WeaponRecord)
    ensures r.name == w.title && r.image == w.weaponImage.url
    ensures r.subtype.None? <==> w.weaponSubtype.None?
    ensures w.weaponSubtype.Some? ==> r.subtype.value == w.weaponSubtype.value
  {
    WeaponRecord(w.title, w.weaponSubtype, w.weaponImage.url)
  }

  predicate AllKnown(entries: seq<WeaponEntry>) {
    forall i :: 0 <= i < |entries| ==> KnownTag(entries[i].weaponType)
  }

  /** The records of the entries tagged `tag`, in payload order. */
  function Bucket(entries: seq<WeaponEntry>, tag: string): seq<WeaponRecord>
    decreases |entries|
  {
    if |entries| == 0 then []
    else
      var last := entries[|entries| - 1];
      Bucket(entries[..|entries| - 1], tag) + (if last.weaponType == tag then [ToRecord(last)] else [])
  }

  /** The number of entries tagged `tag`. */
  function Count(entries: seq<WeaponEntry>, tag: string): nat
    decreases |entries|
  {
    if |entries| == 0 then 0
    else (if entries[0].weaponType == tag then 1 else 0) + Count(entries[1..], tag)
  }

  /** The position in bucket `tag` at which entry `i` lands: the number of earlier
      entries with that tag. */
  function Rank(entries: seq<WeaponEntry>, tag: string, i: nat): nat
    requires i <= |entries|
  {
    |Bucket(entries[..i], tag)|
  }

  /** The record of the last entry tagged `unique-ability`, if any. */
  function LastUnique(entries: seq<WeaponEntry>): Option<WeaponRecord>
    decreases |entries|
  {
    if |entries| == 0 then None
    else
      var last := entries[|entries| - 1];
      if last.weaponType == UniqueAbility then Some(ToRecord(last))
      else LastUnique(entries[..|entries| - 1])
  }

  /** The index of the first entry whose tag is not one of the four. */
  function FirstUnknown(entries: seq<WeaponEntry>): (i: nat)
    requires !AllKnown(entries)
    ensures i < |entries| && !KnownTag(entries[i].weaponType)
    ensures AllKnown(entries[..i])
    decreases |entries|
  {
    if !KnownTag(entries[0].weaponType) then 0
    else
      assert !AllKnown(entries[1..]) by {
        var j :| 0 <= j < |entries| && !KnownTag(entries[j].weaponType);
        assert entries[1..][j - 1] == entries[j];
      }
      var j := FirstUnknown(entries[1..]);
      var prefix := entries[..1 + j];
      assert AllKnown(prefix) by {
        forall k | 0 <= k < |prefix|
          ensures KnownTag(prefix[k].weaponType)
        {
          if k > 0 {
            assert prefix[k] == entries[1..][..j][k - 1];
          }
        }
      }
      1 + j
  }

  /** What classifying a loadout yields: the buckets and the last unique ability when
      every tag is known, otherwise the error for the first entry with an unknown tag. */
  function Classify(entries: seq<WeaponEntry>, slug: string): Result<Loadout, ScrapeError> {
    if AllKnown(entries) then
      Ok(Loadout(Bucket(entries, Primary), Bucket(entries, Secondary), Bucket(entries, Gadget),
                 LastUnique(entries)))
    else
      var i := FirstUnknown(entries);
      Err(UnknownWeaponType(entries[i].weaponType, entries[i].title, slug))
  }

  /** The classification loop: walks the entries in order, appends each record to its
      list or overwrites the unique slot, and raises on the first unknown tag. */
  method ClassifyLoadout(entries: seq<WeaponEntry>, slug: string) returns (r: Result<Loadout, ScrapeError>)
    ensures r == Classify(entries, slug)
  {
    var primary: seq<WeaponRecord> := [];
    var secondary: seq<WeaponRecord> := [];
    var gadgets: seq<WeaponRecord> := [];
    var unique: Option<WeaponRecord> := None;
    var i := 0;
    while i < |entries|
      invariant 0 <= i <= |entries|
      invariant AllKnown(entries[..i])
      invariant primary == Bucket(entries[..i], Primary)
      invariant secondary == Bucket(entries[..i], Secondary)
      invariant gadgets == Bucket(entries[..i], Gadget)
      invariant unique == LastUnique(entries[..i])
    {
      var weapon := entries[i];
      var data := ToRecord(weapon);
      assert entries[..i + 1][..i] == entries[..i];
      if weapon.weaponType == Primary {
        primary := primary + [data];
      } else if weapon.weaponType == Secondary {
        secondary := secondary + [data];
      } else if weapon.weaponType == Gadget {
        gadgets := gadgets + [data];
      } else if weapon.weaponType == UniqueAbility {
        unique := Some(data);
      } else {
        assert !AllKnown(entries);
        FirstUnknownUnique(entries, i);
        return Err(UnknownWeaponType(weapon.weaponType, weapon.title, slug));
      }
      i := i + 1;
    }
    assert entries[..i] == entries;
    r := Ok(Loadout(primary, secondary, gadgets, unique));
  }

  /** An entry with an unknown tag preceded only by known ones is the first unknown. */
  lemma FirstUnknownUnique(entries: seq<WeaponEntry>, i: nat)
    requires i < |entries| && !KnownTag(entries[i].weaponType) && AllKnown(entries[..i])
    ensures !AllKnown(entries) && FirstUnknown(entries) == i
  {
    var j := FirstUnknown(entries);
    forall k | 0 <= k < i
      ensures KnownTag(entries[k].weaponType)
    {
      assert entries[..i][k] == entries[k];
    }
    forall k | 0 <= k < j
      ensures KnownTag(entries[k].weaponType)
    {
      assert entries[..j][k] == entries[k];
    }
  }

  /** Classification succeeds exactly when every tag is known; otherwise the error
      names the type and title of the first unknown entry and the slug. */
  lemma ClassifyOutcome(entries: seq<WeaponEntry>, slug: string)
    ensures Classify(entries, slug).Ok? <==> AllKnown(entries)
    ensures Classify(entries, slug).Err? ==>
      exists i :: 0 <= i < |entries| && !KnownTag(entries[i].weaponType) && AllKnown(entries[..i])
        && Classify(entries, slug).error == UnknownWeaponType(entries[i].weaponType, entries[i].title, slug)
  {
    if !AllKnown(entries) {
      var i := FirstUnknown(entries);
      assert 0 <= i < |entries|;
    }
  }

  /** A prefix of the entries fills a prefix of each bucket. */
  lemma {:induction false} BucketPrefix(entries: seq<WeaponEntry>, tag: string, n: nat)
    requires n <= |entries|
    ensures |Bucket(entries[..n], tag)| <= |Bucket(entries, tag)|
    ensures Bucket(entries, tag)[..|Bucket(entries[..n], tag)|] == Bucket(entries[..n], tag)
    decreases |entries|
  {
    if n < |entries| {
      var init := entries[..|entries| - 1];
      assert init[..n] == entries[..n];
      BucketPrefix(init, tag, n);
    } else {
      assert entries[..n] == entries;
    }
  }

  lemma BucketStep(entries: seq<WeaponEntry>, tag: string, i: nat)
    requires i < |entries|
    ensures Bucket(entries[..i + 1], tag)
      == Bucket(entries[..i], tag) + (if entries[i].weaponType == tag then [ToRecord(entries[i])] else [])
  {
    assert entries[..i + 1][..i] == entries[..i];
  }

  /** Every entry tagged `tag` appears in bucket `tag`, at its rank. */
  lemma BucketPlacement(entries: seq<WeaponEntry>, tag: string, i: nat)
    requires i < |entries| && entries[i].weaponType == tag
    ensures Rank(entries, tag, i) < |Bucket(entries, tag)|
    ensures Bucket(entries, tag)[Rank(entries, tag, i)] == ToRecord(entries[i])
  {
    BucketStep(entries, tag, i);
    BucketPrefix(entries, tag, i + 1);
  }

  /** Ranks never decrease along the payload, and the rank strictly grows past each
      tagged entry: tagged entries keep their payload order in the bucket. */
  lemma RankMonotone(entries: seq<WeaponEntry>, tag: string, i: nat, j: nat)
    requires i <= j <= |entries|
    ensures Rank(entries, tag, i) <= Rank(entries, tag, j)
    ensures i < j && entries[i].weaponType == tag ==> Rank(entries, tag, i) < Rank(entries, tag, j)
  {
    assert entries[..j][..i] == entries[..i];
    BucketPrefix(entries[..j], tag, i);
    if i < j {
      assert entries[..j][..i + 1] == entries[..i + 1];
      BucketStep(entries, tag, i);
      BucketPrefix(entries[..j], tag, i + 1);
    }
  }

  /** Every record of bucket `tag` comes from an entry tagged `tag`, at that entry's rank. */
  lemma {:induction false} BucketOrigin(entries: seq<WeaponEntry>, tag: string, k: nat)
    requires k < |Bucket(entries, tag)|
    ensures exists i :: 0 <= i < |entries| && entries[i].weaponType == tag && Rank(entries, tag, i) == k
    decreases |entries|
  {
    var n := |entries|;
    var init := entries[..n - 1];
    if k < |Bucket(init, tag)| {
      BucketOrigin(init, tag, k);
      var i :| 0 <= i < |init| && init[i].weaponType == tag && Rank(init, tag, i) == k;
      assert init[..i] == entries[..i];
      assert entries[i].weaponType == tag && Rank(entries, tag, i) == k;
    } else {
      assert entries[..n - 1] == init;
      assert entries[n - 1].weaponType == tag && Rank(entries, tag, n - 1) == k;
    }
  }

  /** Each bucket is as long as the number of entries carrying its tag. */
  lemma {:induction false} BucketLength(entries: seq<WeaponEntry>, tag: string)
    ensures |Bucket(entries, tag)| == Count(entries, tag)
    decreases |entries|
  {
    if |entries| > 0 {
      var n := |entries|;
      BucketLength(entries[..n - 1], tag);
      CountLast(entries, tag);
    }
  }

  lemma {:induction false} CountLast(entries: seq<WeaponEntry>, tag: string)
    requires |entries| > 0
    ensures Count(entries, tag)
      == Count(entries[..|entries| - 1], tag) + (if entries[|entries| - 1].weaponType == tag then 1 else 0)
    decreases |entries|
  {
    var n := |entries|;
    if n > 1 {
      CountLast(entries[1..], tag);
      assert entries[1..][..n - 2] == entries[..n - 1][1..];
    }
  }

  /** When every tag is known, the three lists together hold every entry that is not
      a unique ability, and nothing else. */
  lemma {:induction false} PartitionCount(entries: seq<WeaponEntry>)
    requires AllKnown(entries)
    ensures Count(entries, Primary) + Count(entries, Secondary) + Count(entries, Gadget)
      == |entries| - Count(entries, UniqueAbility)
    decreases |entries|
  {
    if |entries| > 0 {
      assert AllKnown(entries[1..]) by {
        forall k | 0 <= k < |entries[1..]| ensures KnownTag(entries[1..][k].weaponType) {
          assert entries[1..][k] == entries[k + 1];
        }
      }
      assert KnownTag(entries[0].weaponType);
      PartitionCount(entries[1..]);
    }
  }

  /** A successful classification puts every entry that is not a unique ability into
      exactly one of the three lists. */
  lemma ClassifiedPartition(entries: seq<WeaponEntry>, slug: string)
    requires Classify(entries, slug).Ok?
    ensures var l := Classify(entries, slug).value;
      |l.primary| + |l.secondary| + |l.gadgets| == |entries| - Count(entries, UniqueAbility)
  {
    BucketLength(entries, Primary);
    BucketLength(entries, Secondary);
    BucketLength(entries, Gadget);
    PartitionCount(entries);
  }

  /** The unique slot is empty exactly when no entry is a unique ability. */
  lemma {:induction false} LastUniqueNone(entries: seq<WeaponEntry>)
    ensures LastUnique(entries).None? <==>
      forall i :: 0 <= i < |entries| ==> entries[i].weaponType != UniqueAbility
    decreases |entries|
  {
    if |entries| > 0 {
      var n := |entries|;
      var init := entries[..n - 1];
      LastUniqueNone(init);
      assert forall i :: 0 <= i < n - 1 ==> init[i] == entries[i];
    }
  }

  /** A filled unique slot holds the record of the last unique-ability entry. */
  lemma {:induction false} LastUniqueSome(entries: seq<WeaponEntry>)
    requires LastUnique(entries).Some?
    ensures exists j ::
              && 0 <= j < |entries| && entries[j].weaponType == UniqueAbility
              && LastUnique(entries).value == ToRecord(entries[j])
              && (forall k :: j < k < |entries| ==> entries[k].weaponType != UniqueAbility)
    decreases |entries|
  {
    var n := |entries|;
    var init := entries[..n - 1];
    if entries[n - 1].weaponType == UniqueAbility {
      assert LastUnique(entries).value == ToRecord(entries[n - 1]);
    } else {
      LastUniqueSome(init);
      var j :| 0 <= j < |init| && init[j].weaponType == UniqueAbility
        && LastUnique(init).value == ToRecord(init[j])
        && (forall k :: j < k < |init| ==> init[k].weaponType != UniqueAbility);
      assert entries[j] == init[j];
      forall k | j < k < n
        ensures entries[k].weaponType != UniqueAbility
      {
        if k < n - 1 {
          assert entries[k] == init[k];
        }
      }
    }
  }

  /** A single entry lands in no bucket other than its own tag's. */
  lemma NoTagBucket(e: seq<WeaponEntry>, tag: string)
    requires |e| == 1 && e[0].weaponType != tag
    ensures Bucket(e, tag) == []
  {
    assert e[..0] == [];
  }

  /** A loadout with one entry of each tag fills each list with one record and the
      unique slot with the ability's record. */
  lemma OneOfEachTag(p: WeaponEntry, s: WeaponEntry, g: WeaponEntry, u: WeaponEntry, slug: string)
    requires p.weaponType == Primary && s.weaponType == Secondary
    requires g.weaponType == Gadget && u.weaponType == UniqueAbility
    ensures Classify([p, s, g, u], slug)
      == Ok(Loadout([ToRecord(p)], [ToRecord(s)], [ToRecord(g)], Some(ToRecord(u))))
  {
    var e := [p, s, g, u];
    assert e[..0] == [] && e[..4] == e;
    assert AllKnown(e);
    for k := 0 to 4
      invariant Bucket(e[..k], Primary) == (if k >= 1 then [ToRecord(p)] else [])
      invariant Bucket(e[..k], Secondary) == (if k >= 2 then [ToRecord(s)] else [])
      invariant Bucket(e[..k], Gadget) == (if k >= 3 then [ToRecord(g)] else [])
    {
      BucketStep(e, Primary, k);
      BucketStep(e, Secondary, k);
      BucketStep(e, Gadget, k);
    }
  }

  /** Of two unique-ability entries the second one is kept. */
  lemma UniqueLastWins(a: WeaponEntry, b: WeaponEntry, slug: string)
    requires a.weaponType == UniqueAbility && b.weaponType == UniqueAbility
    ensures Classify([a, b], slug) == Ok(Loadout([], [], [], Some(ToRecord(b))))
  {
    assert [a, b][..1] == [a] && [a][..0] == [];
    assert AllKnown([a, b]);
    assert |UniqueAbility| != |Gadget| && |UniqueAbility| != |Primary| && |UniqueAbility| != |Secondary|;
    NoTagBucket([a], Primary);
    NoTagBucket([a], Secondary);
    NoTagBucket([a], Gadget);
  }
}
