/**
 * The live TV screen (src/components/LiveTVView.tsx): the category chips, the
 * channel grid filtered by category and by name or number, the row of pinned
 * channels and the pin button. The channel catalogue (src/lib/liveChannels.ts)
 * is a parameter; the random pick's index is one too.
 */
module LiveTvView {
  import opened Types
  import opened Text
  import opened Collections
  import opened StorageState
  import StorageLaws
  import Storage
  import App

  const AllCategories := "All"

  /** Each channel's category, in catalogue order. */
  function CategoryColumn(channels: seq<LiveChannel>): (r: seq<string>)
    ensures |r| == |channels| && forall i :: 0 <= i < |channels| ==> r[i] == channels[i].category
  {
    if |channels| == 0 then [] else CategoryColumn(channels[..|channels| - 1]) + [channels[|channels| - 1].category]
  }

  /** `categories`: 'All', then each category once, in order of first appearance. */
  function Categories(channels: seq<LiveChannel>): (r: seq<string>)
    ensures |r| >= 1 && r[0] == AllCategories
    ensures Subseq(r[1..], CategoryColumn(channels))
  {
    [AllCategories] + DedupFirst(CategoryColumn(channels), (c: string) => c)
  }

  /**
   * The chips start with 'All' and then name every category of the catalogue
   * and nothing else, each once, in the catalogue's order.
   */
  lemma CategoriesLaws(channels: seq<LiveChannel>, category: string)
    ensures var r := Categories(channels);
      && r[0] == AllCategories
      && (category in r[1..] <==> exists i :: 0 <= i < |channels| && channels[i].category == category)
      && (forall i, j :: 1 <= i < j < |r| ==> r[i] != r[j])
      && Subseq(r[1..], CategoryColumn(channels))
  {
    var column := CategoryColumn(channels);
    var d := DedupFirst(column, (c: string) => c);
    var r := Categories(channels);
    assert r[1..] == d;
    assert category in d <==> category in Keys(d, (c: string) => c) by {
      if category in d {
        var k :| 0 <= k < |d| && d[k] == category;
      }
    }
    assert category in Keys(column, (c: string) => c) <==> exists i :: 0 <= i < |channels| && channels[i].category == category by {
      if exists i :: 0 <= i < |channels| && channels[i].category == category {
        var i :| 0 <= i < |channels| && channels[i].category == category;
        assert column[i] == category;
      }
    }
    forall i, j | 1 <= i < j < |r| ensures r[i] != r[j] {
      assert r[i] == d[i - 1] && r[j] == d[j - 1];
    }
  }

  /** A channel passes when its category is the selected one (or 'All' is) and the query is empty or found in its name (ignoring case) or its number. */
  predicate Matches(c: LiveChannel, category: string, query: string)
  {
    && (category == AllCategories || c.category == category)
    && (query == "" || Contains(ToLower(c.name), ToLower(query)) || Contains(NatToString(c.channelNumber), query))
  }

  /** `filteredChannels`. */
  function Filtered(channels: seq<LiveChannel>, category: string, query: string): (r: seq<LiveChannel>)
    ensures forall c :: c in r <==> c in channels && Matches(c, category, query)
    ensures Subseq(r, channels)
  {
    Filter(channels, (c: LiveChannel) => Matches(c, category, query))
  }

  /** Every string occurs in itself. */
  lemma ContainsSelf(s: string)
    ensures Contains(s, s)
  {
    assert OccursAt(s, s, 0);
  }

  /**
   * The grid keeps the catalogue's order and shows exactly the matching
   * channels; 'All' with an empty query shows the whole catalogue; a channel
   * is found by its full name in any case and by its number.
   */
  lemma FilteredLaws(channels: seq<LiveChannel>, category: string, query: string, c: LiveChannel)
    ensures var r := Filtered(channels, category, query);
      && (c in r <==> c in channels && Matches(c, category, query))
      && Subseq(r, channels)
      && Filtered(channels, AllCategories, "") == channels
      && (c in channels && (query == c.name || query == NatToString(c.channelNumber)) ==> c in Filtered(channels, AllCategories, query))
  {
    FilterKeepsAll(channels, (x: LiveChannel) => Matches(x, AllCategories, ""));
    ContainsSelf(ToLower(c.name));
    ContainsSelf(NatToString(c.channelNumber));
  }

  /** `pinnedChannels`: the catalogue's channels whose name is pinned, in catalogue order. */
  function PinnedRow(channels: seq<LiveChannel>, pinned: seq<string>): (r: seq<LiveChannel>)
    ensures forall c :: c in r <==> c in channels && c.name in pinned
    ensures Subseq(r, channels)
  {
    Filter(channels, (c: LiveChannel) => c.name in pinned)
  }

  /** Toggling a name leaves every other name's pinned status alone. */
  lemma ToggledOthers(pinned: seq<string>, name: string, other: string)
    requires other != name
    ensures other in Toggled(pinned, name) <==> other in pinned
  {
    if name in pinned {
      StorageLaws.ToggledRemoves(pinned, name);
      assert multiset(Toggled(pinned, name))[other] == multiset(pinned)[other];
    } else {
      StorageLaws.ToggledAbsent(pinned, name);
    }
  }

  /**
   * The pinned row shows catalogue channels only, in catalogue order; pressing
   * a channel's pin (on a duplicate-free list) moves exactly the channels of
   * that name into or out of the row.
   */
  lemma PinnedRowLaws(channels: seq<LiveChannel>, pinned: seq<string>, name: string, c: LiveChannel)
    requires StorageLaws.NoDuplicates(pinned)
    ensures var r := PinnedRow(channels, pinned);
      && (c in r <==> c in channels && c.name in pinned)
      && Subseq(r, channels)
      && (c in channels && c.name == name ==> (c in PinnedRow(channels, Toggled(pinned, name)) <==> c !in r))
      && (c.name != name ==> (c in PinnedRow(channels, Toggled(pinned, name)) <==> c in r))
  {
    StorageLaws.ToggledNoDuplicates(pinned, name);
    if c.name != name {
      ToggledOthers(pinned, name, c.name);
    }
  }

  class LiveTv {
    const profileId: string
    const channels: seq<LiveChannel>
    var selectedCategory: string
    var searchQuery: string
    var refreshKey: int

    constructor (profileId: string, channels: seq<LiveChannel>)
      ensures this.profileId == profileId && this.channels == channels
      ensures selectedCategory == AllCategories && searchQuery == "" && refreshKey == 0
    {
      this.profileId := profileId;
      this.channels := channels;
      selectedCategory := AllCategories;
      searchQuery := "";
      refreshKey := 0;
    }

    /** The channels in the grid now. */
    function Shown(): seq<LiveChannel>
      reads this
    {
      Filtered(channels, selectedCategory, searchQuery)
    }

    /** The pinned row for the stored pins. */
    function Pinned(store: Storage.Store): seq<LiveChannel>
      reads this, store
    {
      PinnedRow(channels, GetPinnedChannels(store.State(), profileId))
    }

    method SelectCategory(category: string)
      modifies this
      ensures selectedCategory == category && searchQuery == old(searchQuery) && refreshKey == old(refreshKey)
    {
      selectedCategory := category;
    }

    method SetQuery(query: string)
      modifies this
      ensures searchQuery == query && selectedCategory == old(selectedCategory) && refreshKey == old(refreshKey)
    {
      searchQuery := query;
    }

    /** handleTogglePin: toggle the name in this profile's pins and re-render. */
    method TogglePin(store: Storage.Store, channelName: string)
      modifies this, store
      ensures store.State() == TogglePinnedChannel(old(store.State()), profileId, channelName)
      ensures refreshKey == old(refreshKey) + 1
      ensures selectedCategory == old(selectedCategory) && searchQuery == old(searchQuery)
    {
      store.TogglePinnedChannel(profileId, channelName);
      refreshKey := refreshKey + 1;
    }

    /** handlePickForMe: play the channel at the drawn index as a live stream. */
    method PickForMe(index: nat) returns (view: App.View)
      requires index < |channels|
      ensures view == App.Player(0, Live, None, None, Some(channels[index].embed), Some(channels[index].name))
    {
      var ch := channels[index];
      view := App.Player(0, Live, None, None, Some(ch.embed), Some(ch.name));
    }
  }
}
