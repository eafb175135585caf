/**
 * The startup loader: each CSV dataset is read row by row, rows that fail to map are
 * skipped, and the mapped records are saved through `saveAll` in batches of `BATCH_SIZE`.
 * A dataset is loaded only into an empty repository.
 */
module DataLoader {
  import opened Wrappers
  import opened Time
  import opened Entities

  const BATCH_SIZE: nat := 500

  /** One CSV record as OpenCSV returns it. */
  type Row = seq<string>

  /** A repository, seen through the batches passed to `saveAll` (earlier contents included). */
  class Repository<T> {
    var batches: seq<seq<T>>

    constructor (existing: seq<seq<T>>)
      ensures batches == existing
    {
      batches := existing;
    }

    /**
     * `count()`, as far as startup relies on it: zero exactly when no record has been saved.
     * Records that share an `@Id` are counted separately here; the test against zero is the same.
     */
    function Count(): (n: nat)
      reads this
      ensures n == 0 <==> forall i :: 0 <= i < |batches| ==> batches[i] == []
    {
      FlattenEmpty(batches);
      |Flatten(batches)|
    }

    /** `saveAll(list)`. */
    method SaveAll(batch: seq<T>)
      modifies this
      ensures batches == old(batches) + [batch]
    {
      batches := batches + [batch];
    }
  }

  function Flatten<T>(bs: seq<seq<T>>): seq<T> {
    if bs == [] then [] else Flatten(bs[..|bs| - 1]) + bs[|bs| - 1]
  }

  lemma {:induction false} FlattenAppend<T>(a: seq<seq<T>>, b: seq<seq<T>>)
    ensures Flatten(a + b) == Flatten(a) + Flatten(b)
    decreases |b|
  {
    if b == [] {
      assert a + b == a;
    } else {
      var b' := b[..|b| - 1];
      assert (a + b)[..|a + b| - 1] == a + b';
      FlattenAppend(a, b');
    }
  }

  /** Nothing has been saved iff every batch was empty. */
  lemma {:induction false} FlattenEmpty<T>(bs: seq<seq<T>>)
    ensures Flatten(bs) == [] <==> forall i :: 0 <= i < |bs| ==> bs[i] == []
  {
    if bs != [] {
      FlattenEmpty(bs[..|bs| - 1]);
      assert forall i :: 0 <= i < |bs| - 1 ==> bs[..|bs| - 1][i] == bs[i];
    }
  }

  lemma FlattenSnoc<T>(bs: seq<seq<T>>, b: seq<T>)
    ensures Flatten(bs + [b]) == Flatten(bs) + b
  {
    assert (bs + [b])[..|bs|] == bs;
  }

  /** The records of the rows that map successfully, in input order. */
  function Parsed<T>(rows: seq<Row>, parse: Row -> Option<T>): seq<T> {
    if rows == [] then []
    else Parsed(rows[..|rows| - 1], parse)
         + (match parse(rows[|rows| - 1]) case Some(r) => [r] case None => [])
  }

  /** Mapping distributes over concatenation of the input. */
  lemma {:induction false} ParsedAppend<T>(a: seq<Row>, b: seq<Row>, parse: Row -> Option<T>)
    ensures Parsed(a + b, parse) == Parsed(a, parse) + Parsed(b, parse)
    decreases |b|
  {
    if b == [] {
      assert a + b == a;
    } else {
      var b' := b[..|b| - 1];
      assert (a + b)[..|a + b| - 1] == a + b';
      ParsedAppend(a, b', parse);
    }
  }

  lemma ParsedStep<T>(file: seq<Row>, i: nat, parse: Row -> Option<T>)
    requires 1 <= i < |file|
    ensures Parsed(file[1..i + 1], parse)
            == Parsed(file[1..i], parse) + (if parse(file[i]).Some? then [parse(file[i]).value] else [])
  {
    assert file[1..i + 1][..i - 1] == file[1..i];
  }

  /** A row that fails to map leaves the records unchanged wherever it stands. */
  lemma BadRowSkipped<T>(before: seq<Row>, bad: Row, after: seq<Row>, parse: Row -> Option<T>)
    requires parse(bad).None?
    ensures Parsed(before + [bad] + after, parse) == Parsed(before + after, parse)
  {
    ParsedAppend(before + [bad], after, parse);
    ParsedAppend(before, [bad], parse);
    ParsedAppend(before, after, parse);
    assert Parsed([bad], parse) == [] by {
      assert [bad][..0] == [];
    }
  }

  /** `xs` cut into consecutive batches of `n`, the last one possibly shorter. */
  function Chunks<T>(xs: seq<T>, n: nat): seq<seq<T>>
    requires n > 0
    decreases |xs|
  {
    if xs == [] then []
    else if |xs| <= n then [xs]
    else [xs[..n]] + Chunks(xs[n..], n)
  }

  lemma FlattenCons<T>(b: seq<T>, bs: seq<seq<T>>)
    ensures Flatten([b] + bs) == b + Flatten(bs)
  {
    FlattenAppend([b], bs);
    FlattenSnoc([], b);
    assert [] + [b] == [b];
  }

  /** The batches hold the records in order, with nothing lost or repeated. */
  lemma {:induction false} FlattenChunks<T>(xs: seq<T>, n: nat)
    requires n > 0
    ensures Flatten(Chunks(xs, n)) == xs
    decreases |xs|
  {
    if xs == [] {
    } else if |xs| <= n {
      FlattenCons(xs, []);
      assert [xs] + [] == [xs];
    } else {
      FlattenChunks(xs[n..], n);
      FlattenCons(xs[..n], Chunks(xs[n..], n));
      assert xs == xs[..n] + xs[n..];
    }
  }

  /** Every batch is non-empty and at most `n` long; every batch but the last is exactly `n` long. */
  lemma {:induction false} ChunkSizes<T>(xs: seq<T>, n: nat)
    requires n > 0
    ensures forall i :: 0 <= i < |Chunks(xs, n)| ==> 0 < |Chunks(xs, n)[i]| <= n
    ensures forall i :: 0 <= i < |Chunks(xs, n)| - 1 ==> |Chunks(xs, n)[i]| == n
    ensures xs == [] <==> Chunks(xs, n) == []
    decreases |xs|
  {
    if |xs| > n {
      ChunkSizes(xs[n..], n);
      var c := Chunks(xs, n);
      assert c == [xs[..n]] + Chunks(xs[n..], n);
      assert forall i :: 1 <= i < |c| ==> c[i] == Chunks(xs[n..], n)[i - 1];
    }
  }

  /** Full batches followed by an unfinished buffer are exactly the batching of their records. */
  lemma {:induction false} ChunksOfFullBatches<T>(full: seq<seq<T>>, rest: seq<T>, n: nat)
    requires n > 0
    requires forall i :: 0 <= i < |full| ==> |full[i]| == n
    requires |rest| < n
    ensures Chunks(Flatten(full) + rest, n) == full + (if rest == [] then [] else [rest])
    decreases |full|
  {
    if full == [] {
      assert Flatten(full) + rest == rest;
    } else {
      var tail := full[1..];
      assert full == [full[0]] + tail;
      FlattenAppend([full[0]], tail);
      assert Flatten([full[0]]) == full[0] by {
        assert [full[0]] == [] + [full[0]];
      }
      var xs := Flatten(full) + rest;
      assert xs == full[0] + (Flatten(tail) + rest);
      assert xs[..n] == full[0];
      assert xs[n..] == Flatten(tail) + rest;
      ChunksOfFullBatches(tail, rest, n);
      if Flatten(tail) + rest == [] {
        assert |xs| == n;
      }
    }
  }

  /**
   * The parse-skip-buffer-flush loop of `loadZonesFromFile` and `loadTripsFromFile`.
   * An empty file (no header) saves nothing; otherwise the records of the data rows are
   * saved in input order, in batches of 500 and a final shorter one.
   */
  method LoadFromFile<T>(file: seq<Row>, parse: Row -> Option<T>, repo: Repository<T>)
    modifies repo
    ensures repo.batches == old(repo.batches) + FileBatches(file, parse)
  {
    if file == [] {
      return;
    }
    var buffer: seq<T> := [];
    ghost var saved: seq<seq<T>> := [];
    var i := 1;
    while i < |file|
      invariant 1 <= i <= |file|
      invariant repo.batches == old(repo.batches) + saved
      invariant forall j :: 0 <= j < |saved| ==> |saved[j]| == BATCH_SIZE
      invariant |buffer| < BATCH_SIZE
      invariant Flatten(saved) + buffer == Parsed(file[1..i], parse)
    {
      ParsedStep(file, i, parse);
      var parsed := parse(file[i]);
      if parsed.Some? {
        buffer := buffer + [parsed.value];
        if |buffer| >= BATCH_SIZE {
          repo.SaveAll(buffer);
          FlattenSnoc(saved, buffer);
          saved := saved + [buffer];
          buffer := [];
        }
      }
      i := i + 1;
    }
    assert file[1..i] == file[1..];
    ChunksOfFullBatches(saved, buffer, BATCH_SIZE);
    if buffer != [] {
      repo.SaveAll(buffer);
      assert repo.batches == old(repo.batches) + (saved + [buffer]);
    }
  }

  /** The batches one load of `file` passes to `saveAll`. */
  function FileBatches<T>(file: seq<Row>, parse: Row -> Option<T>): (bs: seq<seq<T>>)
    ensures file == [] ==> bs == []
    ensures file != [] ==> Flatten(bs) == Parsed(file[1..], parse)
    ensures forall i :: 0 <= i < |bs| ==> 0 < |bs[i]| <= BATCH_SIZE
    ensures forall i :: 0 <= i < |bs| - 1 ==> |bs[i]| == BATCH_SIZE
  {
    if file == [] then []
    else
      FlattenChunks(Parsed(file[1..], parse), BATCH_SIZE);
      ChunkSizes(Parsed(file[1..], parse), BATCH_SIZE);
      Chunks(Parsed(file[1..], parse), BATCH_SIZE)
  }

  /** A zone row: `LocationID, Borough, Zone, service_zone`; short rows and bad ids are skipped. */
  function ParseZone(line: Row, parseInt: string -> Option<int>): (z: Option<Zone>)
    ensures z.Some? <==> |line| >= 4 && parseInt(line[0]).Some?
    ensures z.Some? ==> z.value == Zone(parseInt(line[0]).value, line[1], line[2], line[3])
  {
    if |line| < 4 then None
    else match parseInt(line[0])
      case Some(id) => Some(Zone(id, line[1], line[2], line[3]))
      case None => None
  }

  /**
   * A trip row: pickup and dropoff date-times (`yyyy-MM-dd HH:mm:ss`), then pickup and
   * dropoff location ids. The id is left to the database.
   */
  function ParseTrip(line: Row, parseDateTime: string -> Option<DateTime>, parseInt: string -> Option<int>): (t: Option<Trip>)
    ensures t.Some? <==> |line| >= 4 && parseDateTime(line[0]).Some? && parseDateTime(line[1]).Some?
                         && parseInt(line[2]).Some? && parseInt(line[3]).Some?
    ensures t.Some? ==> t.value == Trip(None, parseDateTime(line[0]).value, parseDateTime(line[1]).value,
                                         parseInt(line[2]).value, parseInt(line[3]).value)
  {
    if |line| < 4 then None
    else
      match (parseDateTime(line[0]), parseDateTime(line[1]), parseInt(line[2]), parseInt(line[3]))
      case (Some(pickup), Some(dropoff), Some(pu), Some(dz)) => Some(Trip(None, pickup, dropoff, pu, dz))
      case _ => None
  }

  method LoadZonesFromFile(file: seq<Row>, parseInt: string -> Option<int>, repo: Repository<Zone>)
    modifies repo
    ensures repo.batches == old(repo.batches) + FileBatches(file, row => ParseZone(row, parseInt))
  {
    LoadFromFile(file, row => ParseZone(row, parseInt), repo);
  }

  method LoadTripsFromFile(file: seq<Row>, parseDateTime: string -> Option<DateTime>,
                           parseInt: string -> Option<int>, repo: Repository<Trip>)
    modifies repo
    ensures repo.batches == old(repo.batches) + FileBatches(file, row => ParseTrip(row, parseDateTime, parseInt))
  {
    LoadFromFile(file, row => ParseTrip(row, parseDateTime, parseInt), repo);
  }

  /** What startup does to one repository: load the file only if the repository is empty. */
  function StartupEffect<T>(batches: seq<seq<T>>, file: seq<Row>, parse: Row -> Option<T>): (r: seq<seq<T>>)
    ensures |Flatten(batches)| > 0 ==> r == batches
    ensures |r| >= |batches| && r[..|batches|] == batches
    ensures |Flatten(batches)| == 0 ==> Flatten(r) == if file == [] then [] else Parsed(file[1..], parse)
  {
    if |Flatten(batches)| == 0 then
      FlattenAppend(batches, FileBatches(file, parse));
      batches + FileBatches(file, parse)
    else batches
  }

  /** Running startup again with the same data changes nothing. */
  lemma StartupIdempotent<T>(batches: seq<seq<T>>, file: seq<Row>, parse: Row -> Option<T>)
    ensures StartupEffect(StartupEffect(batches, file, parse), file, parse) == StartupEffect(batches, file, parse)
  {
    var once := StartupEffect(batches, file, parse);
    if |Flatten(batches)| == 0 && |Flatten(once)| == 0 {
      var bs := FileBatches(file, parse);
      FlattenAppend(batches, bs);
      assert bs == [];
      assert once + bs == once;
    }
  }

  /** `loadDataOnStartup`: zones and trips, each only into an empty repository. */
  method LoadDataOnStartup(zoneFile: seq<Row>, tripFile: seq<Row>,
                           parseInt: string -> Option<int>, parseDateTime: string -> Option<DateTime>,
                           zones: Repository<Zone>, trips: Repository<Trip>)
    modifies zones, trips
    ensures zones.batches == StartupEffect(old(zones.batches), zoneFile, row => ParseZone(row, parseInt))
    ensures trips.batches == StartupEffect(old(trips.batches), tripFile, row => ParseTrip(row, parseDateTime, parseInt))
  {
    if zones.Count() == 0 {
      LoadZonesFromFile(zoneFile, parseInt, zones);
    }
    if trips.Count() == 0 {
      LoadTripsFromFile(tripFile, parseDateTime, parseInt, trips);
    }
  }
}
