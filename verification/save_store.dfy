/** The save file as a value: the `games` history that `saveScoreToJson` and
    `loadScoreFromJson` read and write. */
module SaveStore {
  import opened Wrappers
  import opened Geometry

  /** One saved game: the craft's position, the score and an opaque date string. */
  datatype Record = Record(position: Vec, score: int, date: string)

  /** The file's contents: `None` when it cannot be opened or parsed, otherwise its
      `games` array (a file without that key reads as an empty history). */
  type Store = Option<seq<Record>>

  /** The history a save starts from: nothing when the file is unreadable. */
  function Stored(store: Store): seq<Record> {
    match store
    case None => []
    case Some(games) => games
  }

  function Last(games: seq<Record>): Record
    requires games != []
  {
    games[|games| - 1]
  }

  /** `saveScoreToJson`: the whole in-memory list is appended to whatever history
      the file already holds, and the file is rewritten. */
  function Save(store: Store, list: seq<Record>): (r: Store)
    ensures r.Some?
    ensures |Stored(r)| == |Stored(store)| + |list|
    ensures Stored(r)[..|Stored(store)|] == Stored(store)
    ensures Stored(r)[|Stored(store)|..] == list
  {
    Some(Stored(store) + list)
  }

  /** What `loadScoreFromJson` leaves in its three reference parameters. */
  datatype Loaded = Loaded(saves: seq<Record>, position: Vec, score: int)

  /** `loadScoreFromJson`: an unreadable file changes nothing; otherwise the list
      becomes the stored history, and the last record, if any, supplies the
      position and the score. */
  function Load(store: Store, saves: seq<Record>, position: Vec, score: int): (r: Loaded)
    ensures store.None? ==> r == Loaded(saves, position, score)
    ensures store.Some? ==> r.saves == store.value
    ensures store.Some? && store.value != [] ==>
              r.position == Last(store.value).position && r.score == Last(store.value).score
    ensures store.Some? && store.value == [] ==> r.position == position && r.score == score
  {
    match store
    case None => Loaded(saves, position, score)
    case Some(games) =>
      if games == [] then Loaded(games, position, score)
      else Loaded(games, Last(games).position, Last(games).score)
  }

  /** Saving a list that ends in `rec` and loading back yields `rec`'s position and
      score, with the list replaced by the old history followed by the saved list. */
  lemma SaveThenLoad(store: Store, list: seq<Record>, rec: Record, saves: seq<Record>, position: Vec, score: int)
    ensures Load(Save(store, list + [rec]), saves, position, score)
            == Loaded(Stored(store) + list + [rec], rec.position, rec.score)
  {
    assert Stored(store) + (list + [rec]) == Stored(store) + list + [rec];
  }

  /** Loading twice from the same file is loading once. */
  lemma LoadIdempotent(store: Store, saves: seq<Record>, position: Vec, score: int)
    ensures var l := Load(store, saves, position, score);
            Load(store, l.saves, l.position, l.score) == l
  {
  }
}
