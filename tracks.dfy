/** Catalog tracks and their ids. A track id arrives either as a string or as a number,
    and the client compares ids in two different ways: strictly (`a === b`, where a string
    never equals a number) and after `String(...)` (where `"5"` equals `5`). The `Id`
    datatype makes the two comparisons distinct: datatype equality is `===`, and
    `ToStr(a) == ToStr(b)` is `String(a) === String(b)`. */
module Tracks {
  import opened JsValues

  datatype Id = Str(s: string) | Num(n: int)

  /** `String(id)`. */
  function ToStr(id: Id): string {
    match id
    case Str(s) => s
    case Num(n) => IntToString(n)
  }

  /** A track as the catalog returns it: `id`, `name`, `artist_name`, `album_image`,
      `audio` (the playable url) and `duration` in whole seconds. */
  datatype Track = Track(id: Id, name: string, artistName: string, albumImage: string,
                         audio: string, duration: nat)

  /** `String(currentTrack?.id)`: with no current track the optional chain yields
      `undefined`, which `String` prints as `"undefined"`. */
  function CurrentIdString(current: Option<Track>): string {
    if current.Some? then ToStr(current.value.id) else "undefined"
  }

  /** A card of the track grid is highlighted as the current track when
      `String(currentTrack?.id) === String(track.id)` (the same test on the music and the
      favorites pages). */
  function IsCurrentCard(current: Option<Track>, track: Track): (r: bool)
    ensures current.Some? ==> (r <==> ToStr(current.value.id) == ToStr(track.id))
    ensures current.None? ==> (r <==> track.id == Str("undefined"))
  {
    CurrentIdString(current) == ToStr(track.id)
  }

  /** Comparing after `String(...)` identifies exactly the strictly equal ids and the pairs
      of a number and the string that prints it. */
  lemma StringEqualityOfIds(a: Id, b: Id)
    ensures ToStr(a) == ToStr(b) <==>
            a == b
            || (a.Num? && b.Str? && b.s == IntToString(a.n))
            || (a.Str? && b.Num? && a.s == IntToString(b.n))
  {
    if a.Num? && b.Num? {
      IntToStringInjective(a.n, b.n);
    }
  }

  /** Strict equality is strictly finer: the number 5 and the string "5" are told apart by
      `===` and identified by `String(...)`. */
  lemma StrictEqualityIsFiner()
    ensures Num(5) != Str("5") && ToStr(Num(5)) == ToStr(Str("5"))
  {
  }
}
