/**
 * The JSON file cache: files keyed by path, read whole, replaced whole
 * through a temporary sibling, and judged fresh by the `_fetched_at` stamp
 * they carry.
 */
module Cache {
  import opened Outcomes
  import opened Json

  /** A file path: its directory components, the file name's stem, and its suffix (".json", ".tmp", ...). */
  datatype Path = Path(dir: seq<string>, stem: string, suffix: string)

  /** `Path.with_suffix`. */
  function WithSuffix(p: Path, suffix: string): Path
  {
    p.(suffix := suffix)
  }

  /** The temporary file a write goes through. */
  function TempOf(p: Path): Path
  {
    WithSuffix(p, ".tmp")
  }

  /** What `read_json_cache` gives for `p`: the stored document, or None when no file is there. */
  function Lookup(files: map<Path, Json>, p: Path): Option<Json>
  {
    if p in files then Some(files[p]) else None
  }

  /**
   * The files after `write_json_cache(p, payload)`: the payload is dumped
   * into p's ".tmp" sibling, which then replaces p, so reading p gives the
   * payload back, the temporary file is gone, and nothing else changed.
   */
  function AfterWrite(files: map<Path, Json>, p: Path, payload: Json): (r: map<Path, Json>)
    ensures Lookup(r, p) == Some(payload)
    ensures TempOf(p) != p ==> Lookup(r, TempOf(p)) == None
    ensures forall q | q != p && q != TempOf(p) :: Lookup(r, q) == Lookup(files, q)
  {
    (files - {TempOf(p)})[p := payload]
  }

  class JsonCache {
    var files: map<Path, Json>

    constructor (files: map<Path, Json>)
      ensures this.files == files
    {
      this.files := files;
    }

    method Read(p: Path) returns (r: Option<Json>)
      ensures r == Lookup(files, p)
    {
      if p !in files {
        return None;
      }
      r := Some(files[p]);
    }

    method Write(p: Path, payload: Json)
      modifies this
      ensures files == AfterWrite(old(files), p, payload)
    {
      var tmp := TempOf(p);
      files := files[tmp := payload];
      var dumped := files[tmp];
      files := (files - {tmp})[p := dumped];
    }
  }

  /** Why `is_fresh` raised: the cached document is not a dict, or its stamp is not a number. */
  datatype FreshnessFault = NotADict | StampNotANumber

  const StampKey := "_fetched_at"

  /** `metadata.get("_fetched_at", 0)` as a number of seconds (Python's arithmetic counts a bool as 0 or 1). */
  function FetchedAt(meta: Json): Result<int, FreshnessFault>
  {
    match meta
    case JObj(fields) =>
      if StampKey !in fields then Ok(0)
      else (match fields[StampKey]
        case JNum(n) => Ok(n)
        case JBool(b) => Ok(if b then 1 else 0)
        case _ => Err(StampNotANumber))
    case _ => Err(NotADict)
  }

  /** `is_fresh(metadata, ttl_seconds)` at clock value `now` (seconds). */
  function IsFresh(meta: Json, ttl: int, now: int): Result<bool, FreshnessFault>
  {
    match FetchedAt(meta)
    case Err(e) => Err(e)
    case Ok(ts) => Ok(now - ts < ttl)
  }

  /** The payload with its `_fetched_at` stamp set to `now`; None when it is not a dict (item assignment raises). */
  function Stamp(payload: Json, now: int): (r: Option<Json>)
    ensures r.Some? <==> payload.JObj?
    ensures r.Some? ==> FetchedAt(r.value) == Ok(now)
    ensures r.Some? ==> forall k | k in payload.fields && k != StampKey :: k in r.value.fields && r.value.fields[k] == payload.fields[k]
    ensures r.Some? ==> r.value.JObj? && r.value.fields.Keys == payload.fields.Keys + {StampKey}
  {
    match payload
    case JObj(fields) => Some(JObj(fields[StampKey := JNum(now)]))
    case _ => None
  }

  /** An entry is fresh exactly when less than ttl seconds have passed since its stamp. */
  lemma FreshIffWithinTtl(fields: map<string, Json>, stamp: int, ttl: int, now: int)
    requires StampKey in fields && fields[StampKey] == JNum(stamp)
    ensures IsFresh(JObj(fields), ttl, now) == Ok(now - stamp < ttl)
  {
  }

  /** A dict with no stamp counts as stamped at time 0. */
  lemma MissingStampCountsAsZero(fields: map<string, Json>, ttl: int, now: int)
    requires StampKey !in fields
    ensures IsFresh(JObj(fields), ttl, now) == Ok(now < ttl)
  {
  }

  /** For fixed metadata and ttl, an entry once stale stays stale as the clock advances. */
  lemma StaleStaysStale(meta: Json, ttl: int, now: int, later: int)
    requires now <= later
    requires IsFresh(meta, ttl, now) == Ok(false)
    ensures IsFresh(meta, ttl, later) == Ok(false)
  {
  }

  /** A payload stamped now is fresh now for any positive ttl, and stale once ttl seconds have passed. */
  lemma StampedIsFreshUntilTtl(payload: Json, now: int, ttl: int, later: int)
    requires payload.JObj? && ttl > 0 && later >= now
    ensures IsFresh(Stamp(payload, now).value, ttl, now) == Ok(true)
    ensures IsFresh(Stamp(payload, now).value, ttl, later) == Ok(later - now < ttl)
  {
  }
}
