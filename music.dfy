/** The music page: catalog search, the set of favorited ids (hydrated from the server,
    extended after a confirmed add) and what each track card shows. */
module Music {
  import opened JsValues
  import opened Tracks
  import opened ClientSession
  import opened AxiosInstance
  import TimeFormat
  import Player

  /** The search reply: `data.results`, which may be missing. */
  datatype SearchData = SearchData(results: Option<seq<Track>>)

  /** `new Set(data.map(t => String(t.id)))`: the ids of the fetched favorites, each as a
      string. */
  function HydratedIds(data: seq<Track>): (r: set<Id>)
    ensures forall t :: t in data ==> Str(ToStr(t.id)) in r
    ensures forall id :: id in r ==> id.Str? && exists t :: t in data && id == Str(ToStr(t.id))
  {
    set t | t in data :: Str(ToStr(t.id))
  }

  /** `favoriteIds.has(String(track.id))`. A JavaScript set compares its members strictly,
      so a number in the set does not answer for the string that prints it: only in a set
      of strings is the test the same as looking for a member that prints like the id. */
  function IsFavoriteIn(ids: set<Id>, t: Track): (r: bool)
    ensures r ==> exists id :: id in ids && ToStr(id) == ToStr(t.id)
    ensures AllStrings(ids) ==> (r <==> exists id :: id in ids && ToStr(id) == ToStr(t.id))
  {
    assert ToStr(Str(ToStr(t.id))) == ToStr(t.id);
    Str(ToStr(t.id)) in ids
  }

  /** `new Set(prev).add(track.id)`: the id goes in as it is, number or string. */
  function InsertRaw(ids: set<Id>, t: Track): (r: set<Id>)
    ensures t.id in r && ids <= r && r - ids <= {t.id}
  {
    ids + {t.id}
  }

  /** The insertion that agrees with the membership test: the id as a string. */
  function InsertNormalized(ids: set<Id>, t: Track): (r: set<Id>)
    ensures Str(ToStr(t.id)) in r && ids <= r && r - ids <= {Str(ToStr(t.id))}
  {
    ids + {Str(ToStr(t.id))}
  }

  /** A set of strings describes its members through `IsFavoriteIn`. */
  predicate AllStrings(ids: set<Id>) {
    forall id :: id in ids ==> id.Str?
  }

  /** As written, adding a track whose id is a number leaves it not favorited by the
      page's own test, so once the mark is cleared its heart is open and enabled for
      another add, and the set no longer holds strings only. */
  lemma RawInsertMissesNumericId(ids: set<Id>, t: Track)
    requires t.id.Num? && !IsFavoriteIn(ids, t)
    ensures !IsFavoriteIn(InsertRaw(ids, t), t)
    ensures !HeartDisabled(InsertRaw(ids, t), None, t)
    ensures !AllStrings(InsertRaw(ids, t))
  {
  }

  /** With the id stored as a string, the added track is favorited, every other track
      keeps its answer unless it prints the same id, and the set stays a set of strings. */
  lemma NormalizedInsertIsFavorite(ids: set<Id>, t: Track, u: Track)
    ensures IsFavoriteIn(InsertNormalized(ids, t), t)
    ensures IsFavoriteIn(InsertNormalized(ids, t), u) <==> IsFavoriteIn(ids, u) || ToStr(u.id) == ToStr(t.id)
    ensures AllStrings(ids) ==> AllStrings(InsertNormalized(ids, t))
    ensures IsFavoriteIn(ids, t) ==> InsertNormalized(ids, t) == ids
  {
  }

  /** Hydration yields exactly the favorites of the fetched list, by string id. */
  lemma HydratedMembership(data: seq<Track>, u: Track)
    ensures IsFavoriteIn(HydratedIds(data), u) <==> exists t :: t in data && ToStr(t.id) == ToStr(u.id)
    ensures AllStrings(HydratedIds(data))
  {
    if IsFavoriteIn(HydratedIds(data), u) {
      var t :| t in data && Str(ToStr(u.id)) == Str(ToStr(t.id));
    }
  }

  /** What a card shows besides the track itself. */
  datatype CardFlags = CardFlags(isCurrent: bool, isPlaying: bool, isFavorite: bool, isAdding: bool)

  /** The flags computed for each card of the grid. */
  function Flags(current: Option<Track>, isPlaying: bool, ids: set<Id>, loadingId: Option<Id>, t: Track): (r: CardFlags)
    ensures current.Some? ==> (r.isCurrent <==> ToStr(current.value.id) == ToStr(t.id))
    ensures r.isPlaying <==> r.isCurrent && isPlaying
    ensures r.isFavorite <==> IsFavoriteIn(ids, t)
    ensures r.isAdding <==> loadingId == Some(t.id)
  {
    var isCurrent := IsCurrentCard(current, t);
    CardFlags(isCurrent, isCurrent && isPlaying, IsFavoriteIn(ids, t), loadingId == Some(t.id))
  }

  /** `disabled={isFavorite || isAdding}` on a card's heart button. An enabled heart is
      one whose click passes the handler's guard, and a track in flight cannot be clicked
      again. */
  function HeartDisabled(ids: set<Id>, loadingId: Option<Id>, t: Track): (r: bool)
    ensures !r ==> !IsFavoriteIn(ids, t) && loadingId != Some(t.id)
    ensures IsFavoriteIn(ids, t) || loadingId == Some(t.id) ==> r
  {
    var f := Flags(None, false, ids, loadingId, t);
    f.isFavorite || f.isAdding
  }

  /** The card highlight uses `String(...)` while `playTrack` compares strictly: whenever
      the current track has a numeric id, a card whose id is the string printing it shows
      as the current track, yet clicking it does not toggle the session but starts the
      card's track as a new one. */
  lemma CardAndPlayerDisagree(s: Player.PlayerState, card: Track, ids: set<Id>, loadingId: Option<Id>)
    requires s.currentTrack.Some? && s.currentTrack.value.id.Num?
    requires card.id == Str(ToStr(s.currentTrack.value.id))
    ensures Flags(s.currentTrack, s.isPlaying, ids, loadingId, card).isCurrent
    ensures !Player.SameTrack(s, card)
    ensures var r := Player.SelectStep(s, card);
            r.currentTrack == Some(card) && r.isPlaying
  {
  }

  /** `('0' + s).slice(-2)` for a string of one or two characters. */
  function LastTwo(s: string): string
    requires |s| >= 2
  {
    s[|s| - 2..]
  }

  /** The card's duration label: `Math.floor(d / 60)`, a colon, and the last two
      characters of `'0' + (d % 60)`. For whole seconds it is the player's `formatTime`,
      so it reads back as the duration. */
  function DurationLabel(d: nat): (r: string)
    ensures r == TimeFormat.FormatTime(d)
    ensures TimeFormat.ParseTime(r) == Some(d)
  {
    LabelIsFormatTime(d);
    TimeFormat.ParseFormatTime(d);
    NatToString(d / 60) + ":" + LastTwo("0" + NatToString(d % 60))
  }

  /** The label as the card builds it is the text `formatTime` gives for the same time. */
  lemma LabelIsFormatTime(d: nat)
    ensures NatToString(d / 60) + ":" + LastTwo("0" + NatToString(d % 60)) == TimeFormat.FormatTime(d)
  {
    var sec := d % 60;
    SecondsField(sec);
    if d == 0 {
      assert NatToString(0) == "0";
    } else {
      assert TimeFormat.FormatTime(d) == NatToString(d / 60) + ":" + TimeFormat.PadSeconds(sec);
    }
  }

  /** The last two characters of `'0' + sec` are the two-digit seconds field. */
  lemma SecondsField(sec: nat)
    requires sec < 60
    ensures LastTwo("0" + NatToString(sec)) == TimeFormat.PadSeconds(sec)
  {
    if sec >= 10 {
      assert |NatToString(sec / 10)| == 1;
      assert |NatToString(sec)| == 2;
    }
  }

  /** `searchKey.trim()` is truthy exactly when the query has a character other than
      white space. */
  function SearchAllowed(query: string): (r: bool)
    ensures r <==> !Blank(query)
  {
    TrimEmptyIffBlank(query);
    Trim(query) != ""
  }

  const DefaultSort: string := "popularity_total"

  class MusicPage {
    var searchKey: string
    var tracks: seq<Track>
    var loading: bool
    var sortBy: string
    var favoriteIds: set<Id>
    var loadingFavoriteId: Option<Id>

    constructor ()
      ensures searchKey == "" && tracks == [] && !loading && sortBy == DefaultSort
      ensures favoriteIds == {} && loadingFavoriteId == None
    {
      searchKey, tracks, loading, sortBy := "", [], false, DefaultSort;
      favoriteIds, loadingFavoriteId := {}, None;
    }

    /** Typing in the search box. */
    method EditQuery(value: string)
      modifies this
      ensures searchKey == value
      ensures tracks == old(tracks) && loading == old(loading) && sortBy == old(sortBy)
      ensures favoriteIds == old(favoriteIds) && loadingFavoriteId == old(loadingFavoriteId)
    {
      searchKey := value;
    }

    /** The effect that loads the favorite ids when the page mounts, given the stored
        token and the reply of `GET /playlist`. Nothing is requested without a token; a
        reply without a list fails at `data.map` and, like any failure, is only logged. */
    method HydrateFavorites(token: Option<string>, reply: Reply<Option<seq<Track>>>) returns (requested: bool)
      modifies this
      ensures requested <==> Truthy(token)
      ensures requested && reply.Ok? && reply.data.Some? ==> favoriteIds == HydratedIds(reply.data.value)
      ensures !(requested && reply.Ok? && reply.data.Some?) ==> favoriteIds == old(favoriteIds)
      ensures searchKey == old(searchKey) && tracks == old(tracks) && loading == old(loading)
      ensures sortBy == old(sortBy) && loadingFavoriteId == old(loadingFavoriteId)
    {
      if !Truthy(token) {
        return false;
      }
      requested := true;
      match reply
      case Ok(data) =>
        if data.Some? {
          favoriteIds := HydratedIds(data.value);
        }
      case Err(_) =>
    }

    /** `searchTracks`, given the reply of the catalog search. A blank query is refused
        before any request; a reply without results shows an empty grid. */
    method SearchTracks(reply: Reply<SearchData>) returns (requested: bool, toast: Option<Toast>)
      modifies this
      ensures requested <==> SearchAllowed(searchKey)
      ensures !requested ==> tracks == old(tracks) && loading == old(loading) &&
                             toast == Some(Warning("Please enter a song name"))
      ensures requested && reply.Ok? ==>
                tracks == reply.data.results.GetOr([]) &&
                toast == (if tracks == [] then Some(Info("No tracks found")) else None)
      ensures requested && reply.Err? ==>
                tracks == old(tracks) && toast == Some(Error("Error searching tracks. Please try again."))
      ensures requested ==> !loading
      ensures searchKey == old(searchKey) && sortBy == old(sortBy)
      ensures favoriteIds == old(favoriteIds) && loadingFavoriteId == old(loadingFavoriteId)
    {
      if !SearchAllowed(searchKey) {
        return false, Some(Warning("Please enter a song name"));
      }
      requested := true;
      loading := true;
      match reply {
        case Ok(data) =>
          tracks := data.results.GetOr([]);
          toast := if tracks == [] then Some(Info("No tracks found")) else None;
        case Err(_) =>
          toast := Some(Error("Error searching tracks. Please try again."));
      }
      loading := false;
    }

    /** `addToFavorites(track)`, given the reply of `POST /playlist/add`. A track already
        favorited is refused without a request. Otherwise the id is marked as being added
        while the request is in flight (`pending` is `loadingFavoriteId` at that moment),
        inserted as it is (`InsertRaw`) only once the server confirms, and the mark is
        cleared on both outcomes. Since the membership test looks for the id as a string,
        the added track counts as a favorite only when its id is a string. */
    method AddToFavorites(track: Track, reply: Reply<()>) returns (requested: bool, toast: Toast, ghost pending: Option<Id>)
      modifies this
      ensures requested <==> !IsFavoriteIn(old(favoriteIds), track)
      ensures !requested ==>
                favoriteIds == old(favoriteIds) && loadingFavoriteId == old(loadingFavoriteId) &&
                toast == Warning("Song already in favorites")
      ensures requested ==> pending == Some(track.id) && loadingFavoriteId == None
      ensures requested && reply.Ok? ==>
                favoriteIds == InsertRaw(old(favoriteIds), track) &&
                (IsFavoriteIn(favoriteIds, track) <==> track.id.Str?) &&
                toast == Success("Added to favorites \U{2764}\U{FE0F}")
      ensures requested && reply.Err? ==>
                favoriteIds == old(favoriteIds) && toast == Error("Failed to add favorite")
      ensures searchKey == old(searchKey) && tracks == old(tracks) && loading == old(loading) && sortBy == old(sortBy)
    {
      if IsFavoriteIn(favoriteIds, track) {
        return false, Warning("Song already in favorites"), None;
      }
      requested := true;
      loadingFavoriteId := Some(track.id);
      pending := loadingFavoriteId;
      match reply {
        case Ok(_) =>
          favoriteIds := InsertRaw(favoriteIds, track);
          toast := Success("Added to favorites \U{2764}\U{FE0F}");
        case Err(_) =>
          toast := Error("Failed to add favorite");
      }
      loadingFavoriteId := None;
    }

    /** `handleSortChange(value)`: the new order is kept, and the search is run again
        (by clicking the search button) only for a non-blank query. */
    method HandleSortChange(value: string) returns (searchAgain: bool)
      modifies this
      ensures sortBy == value
      ensures searchAgain <==> !Blank(searchKey)
      ensures searchKey == old(searchKey) && tracks == old(tracks) && loading == old(loading)
      ensures favoriteIds == old(favoriteIds) && loadingFavoriteId == old(loadingFavoriteId)
    {
      sortBy := value;
      searchAgain := SearchAllowed(searchKey);
    }
  }
}
