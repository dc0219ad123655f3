/** The favorites page: it loads the saved tracks once, shows a spinner, a grid or an empty
    state, and removes a track optimistically, restoring the list when the server refuses. */
module Favorites {
  import opened JsValues
  import opened Tracks
  import opened ClientSession
  import opened AxiosInstance

  /** `favorites.filter(t => String(t.id) !== String(trackId))`. */
  function WithoutId(list: seq<Track>, id: Id): (r: seq<Track>)
    ensures forall t :: t in r <==> t in list && ToStr(t.id) != ToStr(id)
    ensures |r| <= |list|
    decreases |list|
  {
    if list == [] then []
    else
      var rest := WithoutId(list[1..], id);
      assert list == [list[0]] + list[1..];
      if ToStr(list[0].id) != ToStr(id) then [list[0]] + rest else rest
  }

  /** The filter works entry by entry, so it keeps the order of what remains. */
  lemma {:induction false} WithoutIdConcat(a: seq<Track>, b: seq<Track>, id: Id)
    ensures WithoutId(a + b, id) == WithoutId(a, id) + WithoutId(b, id)
    decreases |a|
  {
    if a == [] {
      assert a + b == b;
    } else {
      assert (a + b)[1..] == a[1..] + b;
      WithoutIdConcat(a[1..], b, id);
    }
  }

  /** Removing an id that no entry prints leaves the list as it was. */
  lemma {:induction false} WithoutAbsentId(list: seq<Track>, id: Id)
    requires forall i :: 0 <= i < |list| ==> ToStr(list[i].id) != ToStr(id)
    ensures WithoutId(list, id) == list
    decreases |list|
  {
    if list != [] {
      WithoutAbsentId(list[1..], id);
    }
  }

  /** Removing the same id twice removes nothing more. */
  lemma WithoutIdIdempotent(list: seq<Track>, id: Id)
    ensures WithoutId(WithoutId(list, id), id) == WithoutId(list, id)
  {
    var r := WithoutId(list, id);
    forall i | 0 <= i < |r|
      ensures ToStr(r[i].id) != ToStr(id)
    {
      assert r[i] in r;
    }
    WithoutAbsentId(r, id);
  }

  /** Clicking a card's remove button takes that card off the page and shortens the list. */
  lemma {:induction false} RemovingShownTrack(list: seq<Track>, t: Track)
    requires t in list
    ensures t !in WithoutId(list, t.id)
    ensures |WithoutId(list, t.id)| < |list|
    decreases |list|
  {
    if list[0] == t {
      assert WithoutId(list, t.id) == WithoutId(list[1..], t.id) by {
        assert list == [list[0]] + list[1..];
      }
    } else {
      RemovingShownTrack(list[1..], t);
    }
  }

  /** Which of the three bodies the page renders. */
  predicate ShowSpinner(loading: bool, favorites: seq<Track>) {
    loading
  }

  predicate ShowGrid(loading: bool, favorites: seq<Track>) {
    !loading && |favorites| > 0
  }

  predicate ShowEmptyState(loading: bool, favorites: seq<Track>) {
    !loading && |favorites| == 0
  }

  /** Exactly one of spinner, grid and empty state is on the page. */
  lemma ExactlyOneBody(loading: bool, favorites: seq<Track>)
    ensures ShowSpinner(loading, favorites) || ShowGrid(loading, favorites) || ShowEmptyState(loading, favorites)
    ensures !(ShowSpinner(loading, favorites) && ShowGrid(loading, favorites))
    ensures !(ShowSpinner(loading, favorites) && ShowEmptyState(loading, favorites))
    ensures !(ShowGrid(loading, favorites) && ShowEmptyState(loading, favorites))
  {
  }

  /** A favorites card's highlight and its pause overlay. */
  datatype FavoriteCard = FavoriteCard(isCurrent: bool, isPlaying: bool)

  function CardFlags(current: Option<Track>, isPlaying: bool, t: Track): (r: FavoriteCard)
    ensures current.Some? ==> (r.isCurrent <==> ToStr(current.value.id) == ToStr(t.id))
    ensures r.isPlaying <==> r.isCurrent && isPlaying
  {
    var isCurrent := IsCurrentCard(current, t);
    FavoriteCard(isCurrent, isCurrent && isPlaying)
  }

  class FavoritesPage {
    var favorites: seq<Track>
    var loading: bool

    constructor ()
      ensures favorites == [] && loading
    {
      favorites, loading := [], true;
    }

    /** `fetchFavorites`, given the stored token and the reply of `GET /playlist`. The
        spinner ends on every path; an absent list counts as empty. */
    method FetchFavorites(token: Option<string>, reply: Reply<Option<seq<Track>>>) returns (requested: bool, toast: Option<Toast>)
      modifies this
      ensures !loading
      ensures requested <==> Truthy(token)
      ensures requested && reply.Ok? ==> favorites == reply.data.GetOr([]) && toast == None
      ensures requested && reply.Err? ==> favorites == old(favorites) && toast == Some(Error("Failed to load favorites"))
      ensures !requested ==> favorites == old(favorites) && toast == None
    {
      if !Truthy(token) {
        loading := false;
        return false, None;
      }
      requested := true;
      match reply {
        case Ok(data) =>
          favorites := data.GetOr([]);
          toast := None;
        case Err(_) =>
          toast := Some(Error("Failed to load favorites"));
      }
      loading := false;
    }

    /** `removeFavorite(e, trackId)`, given the reply of `DELETE /playlist/<id>`. The
        filtered list is on the page while the request is in flight (`shown`); it stays on
        success and the earlier list comes back on failure. */
    method RemoveFavorite(trackId: Id, reply: Reply<()>) returns (toast: Toast, ghost shown: seq<Track>)
      modifies this
      ensures shown == WithoutId(old(favorites), trackId)
      ensures reply.Ok? ==> favorites == shown && toast == Success("Removed from favorites")
      ensures reply.Err? ==> favorites == old(favorites) && toast == Error("Failed to remove favorite")
      ensures loading == old(loading)
    {
      var previous := favorites;
      favorites := WithoutId(favorites, trackId);
      shown := favorites;
      match reply {
        case Ok(_) =>
          toast := Success("Removed from favorites");
        case Err(_) =>
          favorites := previous;
          toast := Error("Failed to remove favorite");
      }
    }
  }
}
