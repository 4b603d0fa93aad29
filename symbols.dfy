/**
 * The file-name rules of `DataManager` in Python/data_bridge.py, over a
 * given directory listing instead of the file system: which symbols
 * `get_available_symbols` reports and in which asset directory
 * `load_symbol_data` finds a symbol's CSV file.
 */
module Symbols {
  import opened Common

  /**
   * The asset directories under the data directory: each one that exists
   * maps to its file names in `os.listdir` order.
   */
  type Listing = map<string, seq<string>>

  /** The asset types, in the order `load_symbol_data` searches them. */
  const AssetTypes: seq<string> := ["stocks", "forex", "crypto"]

  const CsvSuffix: string := ".csv"

  /** `file.endswith('.csv')` */
  predicate IsCsv(file: string)
  {
    |file| >= |CsvSuffix| && file[|file| - |CsvSuffix|..] == CsvSuffix
  }

  /** `file[:-4]` of a CSV file name. */
  function Stem(file: string): (s: string)
    requires IsCsv(file)
    ensures s + CsvSuffix == file
  {
    file[..|file| - |CsvSuffix|]
  }

  /** The stems of the CSV files among `files`, in listing order. */
  function CsvStems(files: seq<string>): (stems: seq<string>)
    ensures |stems| <= |files|
  {
    if files == [] then []
    else
      var last := files[|files| - 1];
      CsvStems(files[..|files| - 1]) + if IsCsv(last) then [Stem(last)] else []
  }

  /** The stems of a concatenated listing are the stems of each part, in order. */
  lemma {:induction false} CsvStemsAppend(a: seq<string>, b: seq<string>)
    ensures CsvStems(a + b) == CsvStems(a) + CsvStems(b)
  {
    if b != [] {
      var b' := b[..|b| - 1];
      assert (a + b)[..|a + b| - 1] == a + b';
      CsvStemsAppend(a, b');
    } else {
      assert a + b == a;
    }
  }

  /** A name is reported exactly when some listed file is it plus ".csv". */
  lemma {:induction false} CsvStemsMembers(files: seq<string>, name: string)
    ensures name in CsvStems(files) <==> name + CsvSuffix in files
  {
    if files != [] {
      var init, last := files[..|files| - 1], files[|files| - 1];
      CsvStemsMembers(init, name);
      assert files == init + [last];
      if last == name + CsvSuffix {
        assert last[|last| - |CsvSuffix|..] == CsvSuffix;
        assert Stem(last) == name;
      }
      if IsCsv(last) && Stem(last) == name {
        assert last == name + CsvSuffix;
      }
    }
  }

  /** The inner loop of `get_available_symbols` over one directory. */
  method CollectCsvStems(files: seq<string>) returns (stems: seq<string>)
    ensures stems == CsvStems(files)
  {
    stems := [];
    var i := 0;
    while i < |files|
      invariant 0 <= i <= |files|
      invariant stems == CsvStems(files[..i])
    {
      var file := files[i];
      if |file| >= 4 && file[|file| - 4..] == ".csv" {
        stems := stems + [file[..|file| - 4]];
      }
      assert files[..i + 1][..i] == files[..i];
      i := i + 1;
    }
    assert files[..i] == files;
  }

  /**
   * `get_available_symbols`: exactly the keys stocks, forex and crypto;
   * under each, the CSV stems of that directory, or nothing when the
   * directory does not exist.
   */
  method GetAvailableSymbols(listing: Listing) returns (symbols: map<string, seq<string>>)
    ensures symbols.Keys == {"stocks", "forex", "crypto"}
    ensures forall t :: t in symbols ==>
              symbols[t] == if t in listing then CsvStems(listing[t]) else []
  {
    symbols := map["stocks" := [], "forex" := [], "crypto" := []];
    var k := 0;
    while k < |AssetTypes|
      invariant 0 <= k <= |AssetTypes|
      invariant symbols.Keys == {"stocks", "forex", "crypto"}
      invariant forall j :: 0 <= j < k ==>
                  symbols[AssetTypes[j]] == if AssetTypes[j] in listing then CsvStems(listing[AssetTypes[j]]) else []
      invariant forall j :: k <= j < |AssetTypes| ==> symbols[AssetTypes[j]] == []
    {
      var assetType := AssetTypes[k];
      if assetType in listing {
        var stems := CollectCsvStems(listing[assetType]);
        symbols := symbols[assetType := stems];
      }
      k := k + 1;
    }
    assert AssetTypes[0] == "stocks" && AssetTypes[1] == "forex" && AssetTypes[2] == "crypto";
  }

  /** Whether `os.path.exists(os.path.join(data_dir, dir, file))`. */
  predicate HasFile(listing: Listing, dir: string, file: string)
  {
    dir in listing && file in listing[dir]
  }

  /**
   * `load_symbol_data`: the directory whose "<symbol>.csv" is read, or None.
   * A non-empty asset type is looked up alone; without one (None or "")
   * stocks, forex and crypto are tried in that order and the first that
   * holds the file wins.
   */
  method LoadSymbolData(listing: Listing, symbol: string, assetType: Option<string>) returns (dir: Option<string>)
    ensures assetType.Some? && assetType.value != "" ==>
              dir == if HasFile(listing, assetType.value, symbol + CsvSuffix) then assetType else None
    ensures (assetType.None? || assetType.value == "") ==>
              && (dir.None? <==> forall k :: 0 <= k < |AssetTypes| ==> !HasFile(listing, AssetTypes[k], symbol + CsvSuffix))
              && (dir.Some? ==> exists k :: 0 <= k < |AssetTypes| && dir.value == AssetTypes[k]
                                  && HasFile(listing, AssetTypes[k], symbol + CsvSuffix)
                                  && forall j :: 0 <= j < k ==> !HasFile(listing, AssetTypes[j], symbol + CsvSuffix))
  {
    var file := symbol + CsvSuffix;
    if assetType.Some? && assetType.value != "" {
      if HasFile(listing, assetType.value, file) {
        return assetType;
      }
      return None;
    }
    var k := 0;
    while k < |AssetTypes|
      invariant 0 <= k <= |AssetTypes|
      invariant forall j :: 0 <= j < k ==> !HasFile(listing, AssetTypes[j], file)
    {
      if HasFile(listing, AssetTypes[k], file) {
        return Some(AssetTypes[k]);
      }
      k := k + 1;
    }
    return None;
  }
}
