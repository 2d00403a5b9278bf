/** The read-through cache over objects in memory, with the copying that keeps its entries its own. */
module HydratingCache {
  import opened Reports
  import opened Fleet
  import opened Publishing

  const SHARD_OWNER_LABEL := "starboard-exporter.giantswarm.io/shard-owner"

  /** An API object in memory, as callers pass it to be filled. Its labels are a map of their own, which whoever holds
      the object can write into; in `content` the owner is left empty. */
  class ApiObject {
    var resourceVersion: nat
    var content: Object
    var labels: LabelMap

    constructor (c: Copy)
      ensures AsCopy() == c && fresh(labels)
    {
      resourceVersion, content := c.ver, c.obj.(owner := "");
      labels := new LabelMap();
      new;
      labels.m := labels.m[SHARD_OWNER_LABEL := c.obj.owner];
    }

    function Owner(): string
      reads this, labels
    {
      if SHARD_OWNER_LABEL in labels.m then labels.m[SHARD_OWNER_LABEL] else ""
    }

    function AsCopy(): Copy
      reads this, labels
    {
      Copy(resourceVersion, content.(owner := Owner()))
    }

    method DeepCopyObject() returns (o: ApiObject)
      ensures fresh(o) && fresh(o.labels) && o.AsCopy() == AsCopy()
    {
      o := new ApiObject(AsCopy());
    }

    /** The destination gets a label map of its own. */
    method DeepCopyInto(dst: ApiObject)
      modifies dst
      ensures fresh(dst.labels) && dst.AsCopy() == old(AsCopy())
    {
      dst.Fill(AsCopy());
    }

    /** What a reader does to the object it is to fill. */
    method Fill(c: Copy)
      modifies this
      ensures fresh(labels) && AsCopy() == c
    {
      resourceVersion, content := c.ver, c.obj.(owner := "");
      labels := new LabelMap();
      labels.m := labels.m[SHARD_OWNER_LABEL := c.obj.owner];
    }

    /** What a reconcile does before it updates the object: it writes into the label map in place. */
    method SetOwner(owner: string)
      modifies labels
      ensures labels.m == old(labels.m)[SHARD_OWNER_LABEL := owner]
      ensures AsCopy() == old(AsCopy()).(obj := old(AsCopy()).obj.(owner := owner))
    {
      labels.m := labels.m[SHARD_OWNER_LABEL := owner];
    }
  }

  datatype CacheEntry = CacheEntry(resourceVersion: nat, held: ApiObject)

  /** What a read of the base cache or of the API server gives. */
  datatype Read = Found(copy: Copy) | NotFound | Broken

  datatype GetError = Ok | IsNotFound | Other

  function ErrorOf(r: Read): GetError {
    match r
    case Found(_) => Ok
    case NotFound => IsNotFound
    case Broken => Other
  }

  /** What `Get` does to the store's snapshots and to the caller's object. */
  datatype GetResult = GetResult(snapshots: map<string, Copy>, obj: Copy, err: GetError, asked: bool)

  function Hydrated(snapshots: map<string, Copy>, key: string, obj: Copy, needs: Option<Object -> bool>,
                    base: Read, api: Read): GetResult {
    if !base.Found? then GetResult(snapshots, obj, ErrorOf(base), false)
    else if needs.None? || !needs.value(base.copy.obj) then GetResult(snapshots, base.copy, Ok, false)
    else if key in snapshots && snapshots[key].ver == base.copy.ver then GetResult(snapshots, snapshots[key], Ok, false)
    else if !api.Found? then GetResult(snapshots, base.copy, ErrorOf(api), true)
    else GetResult(snapshots[key := api.copy], api.copy, Ok, true)
  }

  class HydratingCache {
    const needsHydration: Option<Object -> bool>
    var detailStore: map<string, CacheEntry>

    constructor (needsHydration: Option<Object -> bool>)
      ensures Valid() && Snapshots() == map[] && Stored() == {} && this.needsHydration == needsHydration
    {
      this.needsHydration, detailStore := needsHydration, map[];
    }

    ghost function Stored(): set<ApiObject>
      reads this
    {
      set k | k in detailStore :: detailStore[k].held
    }

    ghost function StoredLabels(): set<LabelMap>
      reads this, Stored()
    {
      set o | o in Stored() :: o.labels
    }

    /** The object and its label map are none of the store's. */
    ghost predicate Apart(obj: ApiObject)
      reads this, Stored(), obj
    {
      obj !in Stored() && obj.labels !in StoredLabels()
    }

    /** Every entry is tagged with its object's own resource version. */
    ghost predicate Valid()
      reads this, Stored()
    {
      forall k | k in detailStore :: detailStore[k].held.resourceVersion == detailStore[k].resourceVersion
    }

    ghost function Snapshots(): map<string, Copy>
      reads this, Stored(), StoredLabels()
    {
      map k | k in detailStore :: detailStore[k].held.AsCopy()
    }

    /** What happens to objects and label maps that are not the store's leaves the snapshots alone. */
    twostate lemma SameSnapshots()
      requires detailStore == old(detailStore)
      requires forall o | o in Stored() :: unchanged(o) && unchanged(o.labels)
      ensures Stored() == old(Stored()) && StoredLabels() == old(StoredLabels()) && Snapshots() == old(Snapshots())
      ensures Valid() <==> old(Valid())
    {
      assert Stored() == old(Stored());
      assert forall o | o in Stored() :: o.labels == old(o.labels) && o.AsCopy() == old(o.AsCopy());
      assert forall k | k in detailStore :: detailStore[k].held in Stored();
    }

    /** A new entry changes the snapshot under its key only. */
    twostate lemma EntryAdded(key: string, new copy: ApiObject)
      requires old(Valid()) && detailStore == old(detailStore)[key := CacheEntry(copy.resourceVersion, copy)]
      requires forall o | o in old(Stored()) :: unchanged(o) && unchanged(o.labels)
      ensures Valid() && Snapshots() == old(Snapshots())[key := copy.AsCopy()]
      ensures Stored() <= old(Stored()) + {copy} && StoredLabels() <= old(StoredLabels()) + {copy.labels}
    {
      forall k | k in detailStore && k != key
        ensures detailStore[k].held in old(Stored())
        ensures detailStore[k].held.AsCopy() == old(detailStore[k].held.AsCopy())
      {
      }
      forall o | o in Stored()
        ensures o == copy || (o in old(Stored()) && o.labels == old(o.labels))
      {
      }
    }

    /**
     * `base` and `api` are what the two readers answer. The caller's object and its label map are never the store's,
     * before or after, and what the store takes in is freshly copied, label map and all.
     */
    method Get(key: string, obj: ApiObject, base: Read, api: Read) returns (err: GetError, ghost asked: bool)
      requires Valid() && Apart(obj)
      modifies this`detailStore, obj
      ensures Valid() && Apart(obj) && fresh(Stored() - old(Stored())) && fresh(StoredLabels() - old(StoredLabels()))
      ensures obj.labels == old(obj.labels) || fresh(obj.labels)
      ensures GetResult(Snapshots(), obj.AsCopy(), err, asked)
           == Hydrated(old(Snapshots()), key, old(obj.AsCopy()), needsHydration, base, api)
    {
      asked := false;
      if !base.Found? {
        return ErrorOf(base), false;
      }
      obj.Fill(base.copy);
      SameSnapshots();
      if needsHydration.None? || !needsHydration.value(obj.AsCopy().obj) {
        return Ok, false;
      }
      var hit := Load(key, obj);
      if hit {
        return Ok, false;
      }
      asked := true;
      err := Hydrate(key, obj, api);
    }

    /** Fills the object from an entry of the object's own version. */
    method Load(key: string, obj: ApiObject) returns (hit: bool)
      requires Valid() && Apart(obj)
      modifies obj
      ensures Valid() && Apart(obj) && Stored() == old(Stored()) && StoredLabels() == old(StoredLabels())
      ensures Snapshots() == old(Snapshots())
      ensures obj.labels == old(obj.labels) || fresh(obj.labels)
      ensures hit <==> key in Snapshots() && Snapshots()[key].ver == old(obj.resourceVersion)
      ensures obj.AsCopy() == if hit then Snapshots()[key] else old(obj.AsCopy())
    {
      hit := false;
      if key in detailStore {
        var val := detailStore[key];
        if val.resourceVersion == obj.resourceVersion {
          val.held.DeepCopyInto(obj);
          SameSnapshots();
          return true;
        }
      }
    }

    /** Asks the API server and keeps what it answers. */
    method Hydrate(key: string, obj: ApiObject, api: Read) returns (err: GetError)
      requires Valid() && Apart(obj)
      modifies this`detailStore, obj
      ensures Valid() && Apart(obj) && fresh(Stored() - old(Stored())) && fresh(StoredLabels() - old(StoredLabels()))
      ensures obj.labels == old(obj.labels) || fresh(obj.labels)
      ensures err == ErrorOf(api)
      ensures api.Found? ==> obj.AsCopy() == api.copy && Snapshots() == old(Snapshots())[key := api.copy]
      ensures !api.Found? ==> obj.AsCopy() == old(obj.AsCopy()) && Snapshots() == old(Snapshots())
    {
      if api.Found? {
        obj.Fill(api.copy);
        SameSnapshots();
        Keep(key, obj);
      }
      err := ErrorOf(api);
    }

    /** Stores a deep copy under the object's own version. */
    method Keep(key: string, obj: ApiObject)
      requires Valid() && Apart(obj)
      modifies this`detailStore
      ensures Valid() && Apart(obj) && fresh(Stored() - old(Stored())) && fresh(StoredLabels() - old(StoredLabels()))
      ensures Snapshots() == old(Snapshots())[key := obj.AsCopy()]
    {
      var copy := obj.DeepCopyObject();
      SameSnapshots();
      label Copied:
      detailStore := detailStore[key := CacheEntry(obj.resourceVersion, copy)];
      EntryAdded@Copied(key, copy);
    }
  }

  /** Whatever a caller does to the object it got, in its fields or in its label map, the cache does not notice. */
  method MutateReturned(cache: HydratingCache, obj: ApiObject, key: string, base: Read, api: Read, scribble: Copy,
                        owner: string)
    requires cache.Valid() && cache.Apart(obj)
    modifies cache`detailStore, obj, obj.labels
    ensures cache.Valid() && cache.Apart(obj)
    ensures obj.AsCopy() == scribble.(obj := scribble.obj.(owner := owner))
    ensures cache.Snapshots()
         == Hydrated(old(cache.Snapshots()), key, old(obj.AsCopy()), cache.needsHydration, base, api).snapshots
  {
    var _, _ := cache.Get(key, obj, base, api);
    label Got:
    obj.SetOwner(owner);
    obj.resourceVersion, obj.content := scribble.ver, scribble.obj;
    cache.SameSnapshots@Got();
  }
}
