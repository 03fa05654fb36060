/**
 * The profile page (`Profile`): the shown profile and the edit copy behind
 * the edit form, save and cancel, the two tabs, and removal from the
 * watchlist by id.
 */
module ProfileRoute {
  import opened Common

  datatype UserProfile = UserProfile(
    id: string,
    name: string,
    email: string,
    avatar: string,
    joinDate: string,
    watchTime: string,
    favoriteGenre: string,
    watchedCount: int,
    watchlistCount: int)

  datatype WatchlistItem = WatchlistItem(
    id: string,
    title: string,
    poster: string,
    kind: string,
    rating: real,
    year: string,
    addedAt: string)

  datatype Tab = History | Watchlist

  /** The profile `useState` starts from. */
  const InitialProfile: UserProfile :=
    UserProfile("1", "John Doe", "john.doe@example.com", "https://picsum.photos/150/150?random=avatar",
                "January 2024", "248 hours", "Action", 156, 42)

  /** The watchlist `useState` starts from. */
  const InitialWatchlist: seq<WatchlistItem> := [
    WatchlistItem("4", "The Dark Knight", "https://picsum.photos/300/450?random=4", "movie", 9.0, "2008", "1 week ago"),
    WatchlistItem("5", "Breaking Bad", "https://picsum.photos/300/450?random=5", "tv", 9.5, "2008", "2 weeks ago")
  ]

  /** `watchlist.filter(item => item.id !== id)`. */
  function WithoutId(items: seq<WatchlistItem>, id: string): (r: seq<WatchlistItem>)
    ensures |r| <= |items|
  {
    if items == [] then []
    else if items[0].id != id then [items[0]] + WithoutId(items[1..], id)
    else WithoutId(items[1..], id)
  }

  /**
   * No item with the id is left, every other item is, in its old relative
   * order, and a watchlist without the id comes back as it was.
   */
  lemma {:induction false} WithoutIdFacts(items: seq<WatchlistItem>, id: string)
    ensures forall x :: x in WithoutId(items, id) <==> x in items && x.id != id
    ensures forall i :: 0 <= i < |WithoutId(items, id)| ==> WithoutId(items, id)[i].id != id
    ensures IsSubseq(WithoutId(items, id), items)
    ensures (forall x :: x in items ==> x.id != id) ==> WithoutId(items, id) == items
  {
    if items != [] {
      WithoutIdFacts(items[1..], id);
      var rest := WithoutId(items[1..], id);
      assert items == [items[0]] + items[1..];
      if items[0].id != id {
        assert IsSubseq([items[0]] + rest, [items[0]] + items[1..]);
      } else {
        assert IsSubseq(rest, [items[0]] + items[1..]);
      }
    }
  }

  /** Removing the same id twice is removing it once. */
  lemma WithoutIdIdempotent(items: seq<WatchlistItem>, id: string)
    ensures WithoutId(WithoutId(items, id), id) == WithoutId(items, id)
  {
    WithoutIdFacts(items, id);
    WithoutIdFacts(WithoutId(items, id), id);
  }

  /** The state of `Profile` that its handlers replace. */
  class ProfilePage {
    var activeTab: Tab
    var isEditing: bool
    var profile: UserProfile
    var editProfile: UserProfile
    var watchlist: seq<WatchlistItem>

    /** The edit copy starts as a copy of the profile, on the history tab. */
    constructor()
      ensures activeTab == History && !isEditing
      ensures profile == InitialProfile && editProfile == profile && watchlist == InitialWatchlist
    {
      activeTab := History;
      isEditing := false;
      profile := InitialProfile;
      editProfile := InitialProfile;
      watchlist := InitialWatchlist;
    }

    /** The Edit button. */
    method StartEdit()
      modifies this
      ensures isEditing
      ensures unchanged(this`activeTab, this`profile, this`editProfile, this`watchlist)
    {
      isEditing := true;
    }

    /** The name input of the edit form. */
    method EditName(value: string)
      modifies this
      ensures editProfile == old(editProfile).(name := value)
      ensures unchanged(this`activeTab, this`isEditing, this`profile, this`watchlist)
    {
      editProfile := editProfile.(name := value);
    }

    /** The email input of the edit form. */
    method EditEmail(value: string)
      modifies this
      ensures editProfile == old(editProfile).(email := value)
      ensures unchanged(this`activeTab, this`isEditing, this`profile, this`watchlist)
    {
      editProfile := editProfile.(email := value);
    }

    /** `handleSaveProfile`: the edit copy becomes the profile and the form closes. */
    method SaveProfile()
      modifies this
      ensures profile == old(editProfile) && !isEditing
      ensures unchanged(this`activeTab, this`editProfile, this`watchlist)
    {
      profile := editProfile;
      isEditing := false;
    }

    /** `handleCancelEdit`: the edit copy goes back to the profile and the form closes. */
    method CancelEdit()
      modifies this
      ensures editProfile == old(profile) && !isEditing
      ensures unchanged(this`activeTab, this`profile, this`watchlist)
    {
      editProfile := profile;
      isEditing := false;
    }

    /**
     * `removeFromWatchlist(id)`; the profile, and so its
     * `watchlistCount`, stays as it was.
     */
    method RemoveFromWatchlist(id: string)
      modifies this
      ensures watchlist == WithoutId(old(watchlist), id)
      ensures unchanged(this`activeTab, this`isEditing, this`profile, this`editProfile)
    {
      watchlist := WithoutId(watchlist, id);
    }

    /** The two tab buttons. */
    method SetActiveTab(tab: Tab)
      modifies this
      ensures activeTab == tab
      ensures unchanged(this`isEditing, this`profile, this`editProfile, this`watchlist)
    {
      activeTab := tab;
    }
  }
}
