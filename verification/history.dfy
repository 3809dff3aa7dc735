/** Loading the history screen (HistoryScreen.js, loadHistoricalData): the
    remote result is used when it is non-empty, otherwise the local store's
    readings filtered to the range; when the remote call throws, the local
    store is read in the catch path; when that read throws too, the screen
    keeps what it showed. The remote fetch, the storage reads and the clock
    are inputs. */
module History {

  import opened Fetching
  import opened Readings
  import opened RangeFilter
  import opened Statistics

  /** The history screen's state record. */
  datatype Screen = Screen(historicalData: seq<Reading>, statistics: Summary, isLoading: bool)

  /** Result of one load: the new state and how many storage reads it made. */
  datatype Loaded = Loaded(screen: Screen, storageReads: nat)

  /** The statistics shown are those of the readings shown. */
  predicate Consistent(s: Screen) {
    s.statistics == Calculate(s.historicalData)
  }

  function Initial(): (s: Screen)
    ensures Consistent(s)
    ensures !s.isLoading && s.historicalData == []
  {
    Screen([], Empty, false)
  }

  /** Sets the readings and their statistics together. */
  function Show(s: Screen, data: seq<Reading>): (t: Screen)
    ensures Consistent(t) && t.historicalData == data && t.isLoading == s.isLoading
  {
    s.(historicalData := data, statistics := Calculate(data))
  }

  /** One loadHistoricalData call. `firstRead` and `secondRead` are what the
      first and second storage reads would return, should they happen. */
  function Load(s: Screen, range: Range, now: int, remote: Fetch<seq<Reading>>,
                firstRead: Fetch<seq<Reading>>, secondRead: Fetch<seq<Reading>>): (r: Loaded)
    ensures !r.screen.isLoading
    ensures r.storageReads <= 2
    ensures r.storageReads == 2 <==> remote == Ok([]) && firstRead.Err?
    ensures Consistent(r.screen) || r.screen == s.(isLoading := false)
    // a non-empty remote result is shown as it is, and storage is not read
    ensures remote.Ok? && |remote.value| > 0 ==>
      r.screen == Show(s, remote.value).(isLoading := false) && r.storageReads == 0
    // otherwise the first storage read, when it succeeds, is filtered and shown
    ensures (remote.Err? || remote.value == []) && firstRead.Ok? ==>
      r.screen == Show(s, FilterByRange(firstRead.value, range, now)).(isLoading := false)
      && r.storageReads == 1
    // a thrown remote call followed by a failed read leaves the screen as it was
    ensures remote.Err? && firstRead.Err? ==>
      r.screen == s.(isLoading := false) && r.storageReads == 1
    // an empty remote result and a failed read make the catch path read again
    ensures remote.Ok? && remote.value == [] && firstRead.Err? ==>
      r.storageReads == 2 &&
      r.screen == (match secondRead
                   case Ok(stored) => Show(s, FilterByRange(stored, range, now))
                   case Err => s).(isLoading := false)
  {
    var busy := s.(isLoading := true);
    // the try block: Ok when it completes, Err when something in it throws
    var tried: Fetch<Loaded> := match remote
      case Err => Err
      case Ok(apiData) =>
        if |apiData| > 0 then Ok(Loaded(Show(busy, apiData), 0))
        else match firstRead
          case Err => Err
          case Ok(stored) => Ok(Loaded(Show(busy, FilterByRange(stored, range, now)), 1));
    // storage reads the try block made before it threw
    var readsBeforeCatch: nat := if remote.Ok? then 1 else 0;
    var done := match tried
      case Ok(l) => l
      case Err =>
        var storageRead := if readsBeforeCatch == 0 then firstRead else secondRead;
        match storageRead
        case Ok(stored) => Loaded(Show(busy, FilterByRange(stored, range, now)), readsBeforeCatch + 1)
        case Err => Loaded(busy, readsBeforeCatch + 1);
    done.(screen := done.screen.(isLoading := false))
  }

  /** Whatever the sources do, the shown statistics stay those of the shown
      readings. */
  lemma LoadPreservesConsistent(s: Screen, range: Range, now: int, remote: Fetch<seq<Reading>>,
                                firstRead: Fetch<seq<Reading>>, secondRead: Fetch<seq<Reading>>)
    requires Consistent(s)
    ensures Consistent(Load(s, range, now, remote, firstRead, secondRead).screen)
  {
  }

  /** Readings shown from the local store are always inside the range's
      window and in the store's order; only a non-empty remote result can
      put other readings on screen, and the screen changes only when some
      source succeeded. */
  lemma LoadShowsOnlySources(s: Screen, range: Range, now: int, remote: Fetch<seq<Reading>>,
                             firstRead: Fetch<seq<Reading>>, secondRead: Fetch<seq<Reading>>)
    ensures var t := Load(s, range, now, remote, firstRead, secondRead).screen;
      || (remote.Ok? && |remote.value| > 0 && t.historicalData == remote.value)
      || (firstRead.Ok? && t.historicalData == FilterByRange(firstRead.value, range, now))
      || (secondRead.Ok? && t.historicalData == FilterByRange(secondRead.value, range, now))
      || t == s.(isLoading := false)
  {
  }

  /** The inputs of one load: the selected range, the clock, and what the
      remote fetch and the storage reads produce. */
  datatype Request = Request(range: Range, now: int, remote: Fetch<seq<Reading>>,
                             firstRead: Fetch<seq<Reading>>, secondRead: Fetch<seq<Reading>>)

  /** The screen after a series of loads, one per range selection. */
  function LoadAll(s: Screen, reqs: seq<Request>): Screen
    decreases |reqs|
  {
    if reqs == [] then s
    else
      var q := reqs[0];
      LoadAll(Load(s, q.range, q.now, q.remote, q.firstRead, q.secondRead).screen, reqs[1..])
  }

  /** From any screen whose statistics match its readings and that is not
      loading, after any series of loads, one finishing before the next
      starts, the statistics shown are those of the readings shown and the
      screen is not loading. */
  lemma {:induction false} LoadAllConsistent(s: Screen, reqs: seq<Request>)
    requires Consistent(s) && !s.isLoading
    ensures Consistent(LoadAll(s, reqs)) && !LoadAll(s, reqs).isLoading
    decreases |reqs|
  {
    if reqs != [] {
      var q := reqs[0];
      LoadPreservesConsistent(s, q.range, q.now, q.remote, q.firstRead, q.secondRead);
      LoadAllConsistent(Load(s, q.range, q.now, q.remote, q.firstRead, q.secondRead).screen, reqs[1..]);
    }
  }
}
