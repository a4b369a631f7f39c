/** The front end's keyword filter (`getFilteredData` in App.js): the items of
    every platform whose text contains the selected keyword, ignoring case,
    tagged with their platform and grouped by it. */
module KeywordFilter {
  import opened Values
  import opened Text
  import opened Scorer
  import opened Platform

  /** What the filter reads of one entry of `results.platforms`: the two item
      lists, either of which may be missing from the response. */
  datatype PlatformView = PlatformView(allItems: Option<seq<Entry>>, sampleItems: Option<seq<Entry>>)

  /** `filtered.platforms[platform]`. */
  datatype PlatformMatches = PlatformMatches(items: seq<Entry>, count: nat)

  /** The `filtered` object. */
  datatype Filtered = Filtered(
    keyword: string,
    platforms: seq<(string, PlatformMatches)>,
    totalItems: nat,
    items: seq<Entry>)

  /** `data.all_items || data.sample_items || []`: an array is truthy even
      when empty, so a present `all_items` is used whatever its length. */
  function ItemsToSearch(v: PlatformView): seq<Entry>
  {
    match v.allItems
    case Some(xs) => xs
    case None =>
      match v.sampleItems
      case Some(xs) => xs
      case None => []
  }

  /** `item.text && item.text.toLowerCase().includes(keyword.toLowerCase())`:
      a missing or empty text is falsy and never matches. */
  predicate Keep(keyword: string, item: Entry)
  {
    && "text" in item && item["text"].Str? && item["text"].s != []
    && Contains(Lower(item["text"].s), Lower(keyword))
  }

  /** `{...item, platform: platform}`. */
  function Tag(item: Entry, platform: string): Entry
  {
    item["platform" := Str(platform)]
  }

  /** `platformItems` after the inner `forEach`: the kept items, tagged, in order. */
  function Matches(keyword: string, platform: string, items: seq<Entry>): seq<Entry>
  {
    if items == [] then []
    else
      var m := Matches(keyword, platform, items[..|items| - 1]);
      var item := items[|items| - 1];
      if Keep(keyword, item) then m + [Tag(item, platform)] else m
  }

  /** The matches of one entry of `results.platforms`. */
  function MatchesOf(keyword: string, entry: (string, PlatformView)): seq<Entry>
  {
    Matches(keyword, entry.0, ItemsToSearch(entry.1))
  }

  /** `filtered` after the outer `forEach` over the platforms `ps`. */
  function FilterAll(keyword: string, ps: seq<(string, PlatformView)>): Filtered
  {
    if ps == [] then Filtered(keyword, [], 0, [])
    else
      var f := FilterAll(keyword, ps[..|ps| - 1]);
      var entry := ps[|ps| - 1];
      var m := MatchesOf(keyword, entry);
      if |m| > 0 then
        Filtered(keyword, f.platforms + [(entry.0, PlatformMatches(m, |m|))], f.totalItems + |m|, f.items + m)
      else f
  }

  /** What `getFilteredData` returns; `None` is `null`. An unselected keyword
      is the empty string. */
  function FilteredData(keyword: string, results: Option<seq<(string, PlatformView)>>): Option<Filtered>
  {
    if keyword == [] || results.None? then None
    else
      var f := FilterAll(keyword, results.value);
      if f.totalItems > 0 then Some(f) else None
  }

  /** `getFilteredData()`, with its two nested loops. */
  method GetFilteredData(selectedKeyword: string, results: Option<seq<(string, PlatformView)>>)
    returns (r: Option<Filtered>)
    ensures r == FilteredData(selectedKeyword, results)
  {
    if selectedKeyword == [] || results.None? {
      return None;
    }
    var ps := results.value;
    var filtered := Filtered(selectedKeyword, [], 0, []);
    var i := 0;
    while i < |ps|
      invariant 0 <= i <= |ps|
      invariant filtered.keyword == selectedKeyword
      invariant filtered == FilterAll(selectedKeyword, ps[..i])
    {
      var platform, data := ps[i].0, ps[i].1;
      var platformItems := SearchPlatform(selectedKeyword, platform, ItemsToSearch(data));
      FilterAllStep(selectedKeyword, ps, i);
      if |platformItems| > 0 {
        filtered := filtered.(
          platforms := filtered.platforms + [(platform, PlatformMatches(platformItems, |platformItems|))],
          items := filtered.items + platformItems,
          totalItems := filtered.totalItems + |platformItems|);
      }
      i := i + 1;
    }
    assert ps[..|ps|] == ps;
    r := if filtered.totalItems > 0 then Some(filtered) else None;
  }

  lemma FilterAllStep(keyword: string, ps: seq<(string, PlatformView)>, i: nat)
    requires i < |ps|
    ensures var f, m := FilterAll(keyword, ps[..i]), MatchesOf(keyword, ps[i]);
      FilterAll(keyword, ps[..i + 1]) ==
        if |m| > 0 then Filtered(keyword, f.platforms + [(ps[i].0, PlatformMatches(m, |m|))], f.totalItems + |m|, f.items + m)
        else f
  {
    assert ps[..i + 1][..i] == ps[..i];
  }

  /** The inner `forEach` of `getFilteredData`: collect the tagged items of
      one platform that contain the keyword. */
  method SearchPlatform(selectedKeyword: string, platform: string, itemsToSearch: seq<Entry>)
    returns (platformItems: seq<Entry>)
    ensures platformItems == Matches(selectedKeyword, platform, itemsToSearch)
  {
    platformItems := [];
    var j := 0;
    while j < |itemsToSearch|
      invariant 0 <= j <= |itemsToSearch|
      invariant platformItems == Matches(selectedKeyword, platform, itemsToSearch[..j])
    {
      var item := itemsToSearch[j];
      assert itemsToSearch[..j + 1][..j] == itemsToSearch[..j];
      if Keep(selectedKeyword, item) {
        platformItems := platformItems + [Tag(item, platform)];
      }
      j := j + 1;
    }
    assert itemsToSearch[..|itemsToSearch|] == itemsToSearch;
  }

  /** Tagging touches only `platform`, so it keeps the text and the verdict. */
  lemma TagKeeps(keyword: string, item: Entry, platform: string)
    ensures Tag(item, platform)["platform"] == Str(platform)
    ensures Keep(keyword, Tag(item, platform)) <==> Keep(keyword, item)
    ensures forall k :: k in item && k != "platform" ==> Tag(item, platform)[k] == item[k]
  {
  }

  /** An entry is in a platform's matches exactly when it is the tagged form of
      one of its items that contains the keyword; every match carries the
      platform's name and itself contains the keyword. */
  lemma {:induction false} MatchesSpec(keyword: string, platform: string, items: seq<Entry>)
    ensures |Matches(keyword, platform, items)| <= |items|
    ensures forall e :: e in Matches(keyword, platform, items) <==>
      exists i :: 0 <= i < |items| && Keep(keyword, items[i]) && e == Tag(items[i], platform)
    ensures forall e :: e in Matches(keyword, platform, items) ==>
      "platform" in e && e["platform"] == Str(platform) && Keep(keyword, e)
  {
    if items != [] {
      var p, x := items[..|items| - 1], items[|items| - 1];
      MatchesSpec(keyword, platform, p);
      TagKeeps(keyword, x, platform);
      var m := Matches(keyword, platform, items);
      forall e
        ensures e in m <==> exists i :: 0 <= i < |items| && Keep(keyword, items[i]) && e == Tag(items[i], platform)
      {
        if e in Matches(keyword, platform, p) {
          var i :| 0 <= i < |p| && Keep(keyword, p[i]) && e == Tag(p[i], platform);
          assert items[i] == p[i];
        }
        if exists i :: 0 <= i < |items| && Keep(keyword, items[i]) && e == Tag(items[i], platform) {
          var i :| 0 <= i < |items| && Keep(keyword, items[i]) && e == Tag(items[i], platform);
          if i < |p| {
            assert items[i] == p[i];
          }
        }
      }
    }
  }

  /** No match at all exactly when no item contains the keyword. */
  lemma NoMatches(keyword: string, platform: string, items: seq<Entry>)
    ensures Matches(keyword, platform, items) == [] <==>
      forall i :: 0 <= i < |items| ==> !Keep(keyword, items[i])
  {
    MatchesSpec(keyword, platform, items);
    if Matches(keyword, platform, items) != [] {
      assert Matches(keyword, platform, items)[0] in Matches(keyword, platform, items);
    }
    if exists i :: 0 <= i < |items| && Keep(keyword, items[i]) {
      var i :| 0 <= i < |items| && Keep(keyword, items[i]);
      assert Tag(items[i], platform) in Matches(keyword, platform, items);
    }
  }

  /** The number of matches summed over the grouped platforms. */
  function CountSum(platforms: seq<(string, PlatformMatches)>): nat
  {
    if platforms == [] then 0 else CountSum(platforms[..|platforms| - 1]) + platforms[|platforms| - 1].1.count
  }

  /** The groups' item lists, one after the other. */
  function Flatten(platforms: seq<(string, PlatformMatches)>): seq<Entry>
  {
    if platforms == [] then [] else Flatten(platforms[..|platforms| - 1]) + platforms[|platforms| - 1].1.items
  }

  /** The shape of `filtered`: each group holds its own count of at least one
      item, `items` lists the groups' items in order, and `totalItems` is both
      its length and the sum of the counts. */
  lemma {:induction false} FilterAllShape(keyword: string, ps: seq<(string, PlatformView)>)
    ensures var f := FilterAll(keyword, ps);
      && f.keyword == keyword
      && |f.platforms| <= |ps|
      && (forall k :: 0 <= k < |f.platforms| ==> 0 < f.platforms[k].1.count == |f.platforms[k].1.items|)
      && f.items == Flatten(f.platforms)
      && f.totalItems == |f.items| == CountSum(f.platforms)
  {
    if ps != [] {
      var p := ps[..|ps| - 1];
      FilterAllShape(keyword, p);
      var f0 := FilterAll(keyword, p);
      var m := MatchesOf(keyword, ps[|ps| - 1]);
      if |m| > 0 {
        var g := f0.platforms + [(ps[|ps| - 1].0, PlatformMatches(m, |m|))];
        assert g[..|g| - 1] == f0.platforms;
      }
    }
  }

  /** A platform is grouped, with its matches, exactly when it has a match. */
  lemma {:induction false} FilterAllGroups(keyword: string, ps: seq<(string, PlatformView)>)
    ensures forall g :: g in FilterAll(keyword, ps).platforms <==>
      exists j :: 0 <= j < |ps| && |MatchesOf(keyword, ps[j])| > 0 &&
        g == (ps[j].0, PlatformMatches(MatchesOf(keyword, ps[j]), |MatchesOf(keyword, ps[j])|))
  {
    if ps != [] {
      var p := ps[..|ps| - 1];
      FilterAllGroups(keyword, p);
      var last := ps[|ps| - 1];
      var m := MatchesOf(keyword, last);
      var groups := FilterAll(keyword, ps).platforms;
      var earlier := FilterAll(keyword, p).platforms;
      assert groups == earlier + if |m| > 0 then [(last.0, PlatformMatches(m, |m|))] else [];
      forall g | g in groups
        ensures exists j :: (0 <= j < |ps| && |MatchesOf(keyword, ps[j])| > 0 &&
          g == (ps[j].0, PlatformMatches(MatchesOf(keyword, ps[j]), |MatchesOf(keyword, ps[j])|)))
      {
        if g in earlier {
          var j :| 0 <= j < |p| && |MatchesOf(keyword, p[j])| > 0 &&
            g == (p[j].0, PlatformMatches(MatchesOf(keyword, p[j]), |MatchesOf(keyword, p[j])|));
          assert ps[j] == p[j];
        } else {
          assert ps[|ps| - 1] == last;
        }
      }
      forall g, j | 0 <= j < |ps| && |MatchesOf(keyword, ps[j])| > 0 &&
          g == (ps[j].0, PlatformMatches(MatchesOf(keyword, ps[j]), |MatchesOf(keyword, ps[j])|))
        ensures g in groups
      {
        if j < |p| {
          assert ps[j] == p[j];
          assert g in earlier;
        }
      }
    }
  }

  /** Every filtered item contains the keyword and is tagged with the name of
      one of the platforms. */
  lemma {:induction false} FilterAllItems(keyword: string, ps: seq<(string, PlatformView)>)
    ensures forall e :: e in FilterAll(keyword, ps).items ==>
      Keep(keyword, e) && "platform" in e && exists j :: 0 <= j < |ps| && e["platform"] == Str(ps[j].0)
  {
    if ps != [] {
      var p := ps[..|ps| - 1];
      FilterAllItems(keyword, p);
      var last := ps[|ps| - 1];
      MatchesSpec(keyword, last.0, ItemsToSearch(last.1));
      forall e | e in FilterAll(keyword, ps).items
        ensures Keep(keyword, e) && "platform" in e && exists j :: 0 <= j < |ps| && e["platform"] == Str(ps[j].0)
      {
        if e in FilterAll(keyword, p).items {
          var j :| 0 <= j < |p| && "platform" in e && e["platform"] == Str(p[j].0);
          assert ps[j] == p[j];
        } else {
          assert e["platform"] == Str(ps[|ps| - 1].0);
        }
      }
    }
  }

  /** `totalItems` is zero exactly when no item of any platform contains the
      keyword. */
  lemma {:induction false} FilterAllEmpty(keyword: string, ps: seq<(string, PlatformView)>)
    ensures FilterAll(keyword, ps).totalItems == 0 <==>
      forall j, i :: 0 <= j < |ps| && 0 <= i < |ItemsToSearch(ps[j].1)| ==> !Keep(keyword, ItemsToSearch(ps[j].1)[i])
  {
    if ps != [] {
      var p := ps[..|ps| - 1];
      FilterAllEmpty(keyword, p);
      var last := ps[|ps| - 1];
      NoMatches(keyword, last.0, ItemsToSearch(last.1));
      forall j | 0 <= j < |p|
        ensures p[j] == ps[j]
      {
      }
    }
  }

  /** `getFilteredData` returns `null` exactly when no keyword is selected,
      there are no results, or no item of any platform contains the keyword;
      otherwise the filtered object with a positive total for that keyword. */
  lemma FilteredDataSpec(keyword: string, results: Option<seq<(string, PlatformView)>>)
    ensures FilteredData(keyword, results).None? <==>
      || keyword == []
      || results.None?
      || forall j, i :: 0 <= j < |results.value| && 0 <= i < |ItemsToSearch(results.value[j].1)| ==>
           !Keep(keyword, ItemsToSearch(results.value[j].1)[i])
    ensures FilteredData(keyword, results).Some? ==>
      FilteredData(keyword, results).value.keyword == keyword &&
      FilteredData(keyword, results).value.totalItems > 0
  {
    if keyword != [] && results.Some? {
      FilterAllEmpty(keyword, results.value);
      FilterAllShape(keyword, results.value);
    }
  }

  /** How the back end's analysis of a platform appears to the filter. */
  function ViewOf(p: PlatformAnalysis): PlatformView
  {
    PlatformView(Some(p.allItems), Some(p.sampleItems))
  }

  /** On a platform analysed by the back end the filter searches `all_items`,
      so it sees each item's full text rather than the 200-character sample:
      entry `i` matches exactly when the `i`-th raw item has a non-empty text
      containing the keyword. */
  lemma BackendItemsSearched(o: Oracles, items: seq<RawItem>, keyword: string)
    ensures var p := AnalyzePlatform(o, items);
      && ItemsToSearch(ViewOf(p)) == p.allItems
      && forall i :: 0 <= i < |p.allItems| ==>
        (Keep(keyword, p.allItems[i]) <==> items[i].text != [] && Contains(Lower(items[i].text), Lower(keyword)))
  {
    AllItemsSpec(o, items);
  }
}
