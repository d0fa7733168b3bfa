/** The on-disk cache of code2.py: one CSV file per symbol, named after it,
    holding the Close column indexed by date. The file system is a map from
    path to what a CSV reader would make of that file; whether writes succeed
    is a property of the store. */
module DailyCache {
  import opened AlphaVantage
  import opened DatedSeries

  /** One row of a Close column: a day and its cell; `None` is an empty
      (NaN) cell. */
  type Row = Dated<Option<Price>>

  const CachePrefix: string := "av_cache_"
  const CacheSuffix: string := "_daily.csv"

  /** The symbol a cache file name belongs to, if it is one. */
  function SymbolOfPath(path: string): Option<string> {
    if |path| >= |CachePrefix| + |CacheSuffix|
       && path[..|CachePrefix|] == CachePrefix
       && path[|path| - |CacheSuffix|..] == CacheSuffix
    then Some(path[|CachePrefix|..|path| - |CacheSuffix|])
    else None
  }

  /** get_cache_path: the file name of a symbol's cache; the symbol can be
      read back from it. */
  function CachePath(symbol: string): (path: string)
    ensures SymbolOfPath(path) == Some(symbol)
  {
    var path := CachePrefix + symbol + CacheSuffix;
    assert path[..|CachePrefix|] == CachePrefix;
    assert path[|path| - |CacheSuffix|..] == CacheSuffix;
    assert path[|CachePrefix|..|path| - |CacheSuffix|] == symbol;
    path
  }

  /** Distinct symbols never share a cache file. */
  lemma CachePathInjective(a: string, b: string)
    requires CachePath(a) == CachePath(b)
    ensures a == b
  {
    assert Some(a) == SymbolOfPath(CachePath(a)) == SymbolOfPath(CachePath(b)) == Some(b);
  }

  /** What reading a cache file gives. */
  datatype CacheFile =
    | Unreadable                               // reading or date parsing raises
    | Table(hasClose: bool, rows: seq<Row>)    // its rows; `hasClose`: it has a "Close" column

  /** load_cached_close_prices on a given file system: the Close column sorted
      by day, or `None` when the file is missing, unreadable or has no Close
      column. It never fails. */
  function LoadFrom(files: map<string, CacheFile>, symbol: string): (cached: Option<seq<Row>>)
    ensures cached.Some? ==> Ascending(cached.value)
    ensures cached.Some? <==>
      CachePath(symbol) in files && files[CachePath(symbol)].Table? && files[CachePath(symbol)].hasClose
    ensures cached.Some? ==> multiset(cached.value) == multiset(files[CachePath(symbol)].rows)
  {
    var path := CachePath(symbol);
    if path !in files then None
    else match files[path]
      case Table(true, rows) => Some(SortByDay(rows))
      case _ => None
  }

  /** save_cache on a given file system: the symbol's file now holds the
      rows; a failed write is swallowed and leaves everything as it was. */
  function SaveTo(files: map<string, CacheFile>, writable: bool, symbol: string, rows: seq<Row>): map<string, CacheFile> {
    if writable then files[CachePath(symbol) := Table(true, rows)] else files
  }

  /** A sorted series that was saved reads back unchanged. */
  lemma SaveThenLoad(files: map<string, CacheFile>, symbol: string, rows: seq<Row>)
    requires Ascending(rows)
    ensures LoadFrom(SaveTo(files, true, symbol, rows), symbol) == Some(rows)
  {
    SortAscendingIsIdentity(rows);
  }

  /** Saving one symbol leaves every other symbol's cache as it was, and a
      failed save leaves all of them as they were. */
  lemma SaveKeepsOthers(files: map<string, CacheFile>, writable: bool, symbol: string, rows: seq<Row>, other: string)
    requires other != symbol || !writable
    ensures LoadFrom(SaveTo(files, writable, symbol, rows), other) == LoadFrom(files, other)
  {
    if writable && CachePath(other) == CachePath(symbol) {
      CachePathInjective(other, symbol);
    }
  }

  /** The cache files of the working directory. */
  class CacheStore {
    var files: map<string, CacheFile>
    /** Whether writing a file succeeds. */
    var writable: bool

    constructor (files: map<string, CacheFile>, writable: bool)
      ensures this.files == files && this.writable == writable
    {
      this.files := files;
      this.writable := writable;
    }

    /** load_cached_close_prices. */
    method LoadCachedClosePrices(symbol: string) returns (cached: Option<seq<Row>>)
      ensures cached == LoadFrom(files, symbol)
    {
      var path := CachePath(symbol);
      if path in files {
        match files[path] {
          case Table(hasClose, rows) =>
            if hasClose {
              return Some(SortByDay(rows));
            }
          case Unreadable =>
            return None;
        }
      }
      return None;
    }

    /** save_cache. */
    method SaveCache(symbol: string, rows: seq<Row>)
      modifies this`files
      ensures files == SaveTo(old(files), writable, symbol, rows)
    {
      var path := CachePath(symbol);
      if writable {
        files := files[path := Table(true, rows)];
      }
    }
  }
}
