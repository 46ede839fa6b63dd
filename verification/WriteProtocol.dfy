/** `updateItem` against the vault service: two numbers, two jobs. Any number of clients edit, overwrite,
    delete, undelete and restore the same items, in any interleaving. */
module WriteProtocol {
  import opened Wrappers

  type Content = map<string, string>

  /** A blob opens only for the item and version it was sealed for; both are in its authenticated data. */
  datatype Blob = Blob(item: string, version: nat, content: Content)

  datatype Row = Row(blob: Blob, blobVersion: nat, revision: nat, live: bool)

  /** `decryptItem` with the row's own identity. */
  function Open(item: string, row: Row): Option<Content> {
    if row.blob.item == item && row.blob.version == row.blobVersion then Some(row.blob.content) else None
  }

  /** `resealItem`: merge into the current ciphertext and seal for the successor version. */
  function Reseal(page: Option<Row>, item: string, changes: Content): Option<Blob> {
    if page.None? then None
    else
      var existing := Open(item, page.value);
      if existing.None? then None
      else Some(Blob(item, page.value.blobVersion + 1, existing.value + changes))
  }

  // ---------------------------------------------------------------- the service

  /** Rows, and the images the version trigger captured of each row before every update. */
  datatype Store = Store(rows: map<string, Row>, images: map<string, seq<Row>>)

  /** Any UPDATE of a row: the trigger captures the old image and assigns the next revision. */
  function Write(store: Store, item: string, row: Row): Store
    requires item in store.rows && item in store.images
  {
    Store(store.rows[item := row.(revision := store.rows[item].revision + 1)],
          store.images[item := store.images[item] + [store.rows[item]]])
  }

  function Insert(store: Store, item: string, blob: Blob): Option<Store> {
    if item in store.rows then None
    else Some(Store(store.rows[item := Row(blob, 1, 1, true)], store.images[item := []]))
  }

  /** What `If-Match` is compared with: the revision, or, as before the two numbers were split, the
      blob version. */
  datatype Token = ByRevision | ByBlobVersion

  function TokenOf(token: Token, row: Row): nat {
    if token.ByRevision? then row.revision else row.blobVersion
  }

  predicate Live(store: Store, item: string) {
    item in store.rows && item in store.images && store.rows[item].live
  }

  /** `PUT`: not found, version conflict, or the row replaced at `blob_version + 1`. */
  function Put(token: Token, store: Store, item: string, ifMatch: nat, blob: Blob): Option<Store> {
    if !Live(store, item) || TokenOf(token, store.rows[item]) != ifMatch then None
    else Some(Write(store, item, store.rows[item].(blob := blob, blobVersion := store.rows[item].blobVersion + 1)))
  }

  /** Restore of the image captured at `imageIndex`. */
  function Restore(token: Token, store: Store, item: string, ifMatch: nat, imageIndex: nat): Option<Store> {
    if !Live(store, item) || TokenOf(token, store.rows[item]) != ifMatch then None
    else if imageIndex >= |store.images[item]| || !store.images[item][imageIndex].live then None
    else
      var image := store.images[item][imageIndex];
      Some(Write(store, item, store.rows[item].(blob := image.blob, blobVersion := image.blobVersion)))
  }

  // ---------------------------------------------------------------- clients

  /** One user's edit. `seen` is the row as the user's list showed it: its two numbers travel with the
      edit. `page` is the row re-read for merging, `base` the one the sealed blob was merged into. */
  datatype Edit =
    | Viewing(item: string, seen: Row)
    | Fetching(item: string, seen: Row, changes: Content)
    | Merging(item: string, seen: Row, changes: Content, page: Option<Row>)
    | Putting(item: string, seen: Row, changes: Content, base: Row, blob: Blob)
    | Closed

  /** History: one accepted `updateItem`, with the row it replaced and the row it left. */
  datatype Accepted = Accepted(item: string, seen: Row, changes: Content, before: Row, after: Row)

  datatype World = World(token: Token, store: Store, edits: seq<Edit>, accepted: seq<Accepted>)

  datatype Step =
    | Creates(item: string, content: Content)
    | Views(item: string)
    | Begins(edit: nat, changes: Content)
    | Fetches(edit: nat, listed: bool)
    | Reseals(edit: nat)
    | Puts(edit: nat)
    | Overwrites(edit: nat, content: Content)    // a client that writes what it viewed plus its own content
    | Deletes(item: string)
    | Undeletes(item: string)
    | Restores(item: string, ifMatch: nat, imageIndex: nat)

  predicate Enabled(w: World, step: Step) {
    match step
    case Views(item) => Live(w.store, item)
    case Begins(e, _) => e < |w.edits| && w.edits[e].Viewing?
    case Fetches(e, _) => e < |w.edits| && w.edits[e].Fetching?
    case Reseals(e) => e < |w.edits| && w.edits[e].Merging?
    case Puts(e) => e < |w.edits| && w.edits[e].Putting?
    case Overwrites(e, _) => e < |w.edits| && w.edits[e].Viewing?
    case Deletes(item) => Live(w.store, item)
    case Undeletes(item) => item in w.store.rows && item in w.store.images && !w.store.rows[item].live
    case _ => true
  }

  function Stored(w: World, store: Option<Store>): World {
    if store.Some? then w.(store := store.value) else w
  }

  function SetEdit(w: World, e: nat, edit: Edit): World
    requires e < |w.edits|
  {
    w.(edits := w.edits[e := edit])
  }

  function Next(w: World, step: Step): World
    requires Enabled(w, step)
  {
    match step
    case Creates(item, content) => Stored(w, Insert(w.store, item, Blob(item, 1, content)))
    case Views(item) => w.(edits := w.edits + [Viewing(item, w.store.rows[item])])
    case Begins(e, changes) => SetEdit(w, e, Fetching(w.edits[e].item, w.edits[e].seen, changes))
    case Fetches(e, listed) =>
      var edit := w.edits[e];
      // The page holds live rows, and only the newest two hundred of them.
      var page := if listed && Live(w.store, edit.item) then Some(w.store.rows[edit.item]) else None;
      SetEdit(w, e, Merging(edit.item, edit.seen, edit.changes, page))
    case Reseals(e) =>
      var edit := w.edits[e];
      var blob := Reseal(edit.page, edit.item, edit.changes);
      SetEdit(w, e, if blob.None? then Closed
                    else Putting(edit.item, edit.seen, edit.changes, edit.page.value, blob.value))
    case Puts(e) => PutEdit(w, e)
    case Overwrites(e, content) =>
      var edit := w.edits[e];
      var blob := Blob(edit.item, edit.seen.blobVersion + 1, content);
      SetEdit(Stored(w, Put(w.token, w.store, edit.item, TokenOf(w.token, edit.seen), blob)), e, Closed)
    case Deletes(item) => w.(store := Write(w.store, item, w.store.rows[item].(live := false)))
    case Undeletes(item) => w.(store := Write(w.store, item, w.store.rows[item].(live := true)))
    case Restores(item, ifMatch, imageIndex) => Stored(w, Restore(w.token, w.store, item, ifMatch, imageIndex))
  }

  /** The PUT of an edit, with the number its user saw as `If-Match`. */
  function PutEdit(w: World, e: nat): World
    requires Enabled(w, Puts(e))
  {
    var edit := w.edits[e];
    var result := Put(w.token, w.store, edit.item, TokenOf(w.token, edit.seen), edit.blob);
    var closed := SetEdit(w, e, Closed);
    if result.None? then closed
    else
      closed.(store := result.value,
              accepted := w.accepted + [Accepted(edit.item, edit.seen, edit.changes,
                                                 w.store.rows[edit.item], result.value.rows[edit.item])])
  }

  function After(token: Token, steps: seq<Step>): Option<World> {
    if steps == [] then Some(World(token, Store(map[], map[]), [], []))
    else
      var before := After(token, steps[..|steps| - 1]);
      var step := steps[|steps| - 1];
      if before.Some? && Enabled(before.value, step) then Some(Next(before.value, step)) else None
  }

  // ---------------------------------------------------------------- the invariant

  /** `row` was the item's row at some time: its revision is not ahead, and at the current revision it
      is the current row. */
  predicate Past(store: Store, item: string, row: Row) {
    && item in store.rows && row.revision <= store.rows[item].revision
    && (row.revision == store.rows[item].revision ==> row == store.rows[item])
  }

  predicate EditOk(store: Store, edit: Edit) {
    match edit
    case Viewing(item, seen) => Past(store, item, seen) && Open(item, seen).Some?
    case Fetching(item, seen, _) => Past(store, item, seen) && Open(item, seen).Some?
    case Merging(item, seen, _, page) =>
      && Past(store, item, seen)
      && (page.Some? ==> Past(store, item, page.value) && seen.revision <= page.value.revision)
    case Putting(item, seen, changes, base, blob) =>
      && Past(store, item, seen) && Past(store, item, base) && seen.revision <= base.revision
      && Reseal(Some(base), item, changes) == Some(blob)
    case Closed => true
  }

  /** Every stored blob opens, live, retired or captured, under the version stored with it. */
  ghost predicate Openable(store: Store) {
    && store.rows.Keys == store.images.Keys
    && (forall item :: item in store.rows ==> Open(item, store.rows[item]).Some?)
    && (forall item :: item in store.images ==>
          forall i :: 0 <= i < |store.images[item]| ==> Open(item, store.images[item][i]).Some?)
  }

  /** An accepted edit was merged into exactly the row it replaced, which is the row its user saw. */
  predicate NoLostUpdate(a: Accepted) {
    && a.seen == a.before
    && Open(a.item, a.before).Some? && Open(a.item, a.after).Some?
    && Open(a.item, a.after).value == Open(a.item, a.before).value + a.changes
    && a.after.blobVersion == a.before.blobVersion + 1
    && a.after.revision == a.before.revision + 1
  }

  ghost predicate Safe(w: World) {
    && Openable(w.store)
    && (forall e :: 0 <= e < |w.edits| ==> EditOk(w.store, w.edits[e]))
    && (forall a :: 0 <= a < |w.accepted| ==> NoLostUpdate(w.accepted[a]))
  }

  /** Later stores keep earlier rows in the past, because revisions only grow. */
  ghost predicate Later(store: Store, store': Store) {
    forall item, row :: Past(store, item, row) ==> Past(store', item, row)
  }

  lemma WriteIsLater(store: Store, item: string, row: Row)
    requires item in store.rows && item in store.images
    ensures Later(store, Write(store, item, row))
  {
  }

  lemma WriteOpenable(store: Store, item: string, row: Row)
    requires Openable(store) && item in store.rows && Open(item, row).Some?
    ensures Openable(Write(store, item, row))
  {
    var store' := Write(store, item, row);
    forall other | other in store'.images
      ensures forall i :: 0 <= i < |store'.images[other]| ==> Open(other, store'.images[other][i]).Some?
    {
      assert other in store.images;
    }
  }

  lemma LaterKeepsEdits(w: World, store': Store)
    requires Safe(w) && Later(w.store, store') && Openable(store')
    ensures Safe(w.(store := store'))
  {
  }

  lemma InsertKeepsSafe(w: World, item: string, content: Content)
    requires Safe(w)
    ensures Safe(Stored(w, Insert(w.store, item, Blob(item, 1, content))))
  {
    var result := Insert(w.store, item, Blob(item, 1, content));
    if result.Some? {
      assert Openable(result.value) by {
        forall other | other in result.value.images
          ensures forall i :: 0 <= i < |result.value.images[other]| ==> Open(other, result.value.images[other][i]).Some?
        {
          if other != item { assert other in w.store.images; }
        }
      }
      LaterKeepsEdits(w, result.value);
    }
  }

  lemma WriteKeepsSafe(w: World, item: string, row: Row)
    requires Safe(w) && item in w.store.rows && Open(item, row).Some?
    ensures Safe(w.(store := Write(w.store, item, row)))
  {
    WriteIsLater(w.store, item, row);
    WriteOpenable(w.store, item, row);
    LaterKeepsEdits(w, Write(w.store, item, row));
  }

  lemma SetEditKeepsSafe(w: World, e: nat, edit: Edit)
    requires Safe(w) && e < |w.edits| && EditOk(w.store, edit)
    ensures Safe(SetEdit(w, e, edit))
  {
  }

  /** The heart of it: an accepted PUT sandwiches the re-read between what the user saw and what is
      replaced, and the revision allows them no room to differ. */
  lemma AcceptedPutIsExact(w: World, e: nat)
    requires Safe(w) && w.token.ByRevision? && Enabled(w, Puts(e))
    requires Put(w.token, w.store, w.edits[e].item, TokenOf(w.token, w.edits[e].seen), w.edits[e].blob).Some?
    ensures w.edits[e].base == w.edits[e].seen == w.store.rows[w.edits[e].item]
    ensures Open(w.edits[e].item, w.store.rows[w.edits[e].item]).Some?
    ensures w.edits[e].blob == Blob(w.edits[e].item, w.store.rows[w.edits[e].item].blobVersion + 1,
                                    Open(w.edits[e].item, w.store.rows[w.edits[e].item]).value + w.edits[e].changes)
  {
    assert EditOk(w.store, w.edits[e]);
  }

  lemma PutKeepsSafe(w: World, e: nat)
    requires Safe(w) && w.token.ByRevision? && Enabled(w, Puts(e))
    ensures Safe(PutEdit(w, e))
  {
    var edit := w.edits[e];
    SetEditKeepsSafe(w, e, Closed);
    if Put(w.token, w.store, edit.item, TokenOf(w.token, edit.seen), edit.blob).Some? {
      AcceptedPutIsExact(w, e);
      var row := w.store.rows[edit.item];
      var row' := row.(blob := edit.blob, blobVersion := row.blobVersion + 1);
      WriteKeepsSafe(SetEdit(w, e, Closed), edit.item, row');
    }
  }

  lemma RestoreKeepsSafe(w: World, item: string, ifMatch: nat, imageIndex: nat)
    requires Safe(w)
    ensures Safe(Stored(w, Restore(w.token, w.store, item, ifMatch, imageIndex)))
  {
    if Restore(w.token, w.store, item, ifMatch, imageIndex).Some? {
      var image := w.store.images[item][imageIndex];
      WriteKeepsSafe(w, item, w.store.rows[item].(blob := image.blob, blobVersion := image.blobVersion));
    }
  }

  lemma SealedPutKeepsSafe(w: World, edit: Edit, content: Content)
    requires Safe(w) && w.token.ByRevision? && !edit.Closed? && EditOk(w.store, edit)
    ensures Safe(Stored(w, Put(w.token, w.store, edit.item, TokenOf(w.token, edit.seen),
                               Blob(edit.item, edit.seen.blobVersion + 1, content))))
  {
    hide Safe, Write;
    var blob := Blob(edit.item, edit.seen.blobVersion + 1, content);
    if Put(w.token, w.store, edit.item, TokenOf(w.token, edit.seen), blob).Some? {
      var row := w.store.rows[edit.item];
      WriteKeepsSafe(w, edit.item, row.(blob := blob, blobVersion := row.blobVersion + 1));
    }
  }

  lemma OverwriteKeepsSafe(w: World, e: nat, content: Content)
    requires Safe(w) && w.token.ByRevision? && Enabled(w, Overwrites(e, content))
    ensures Safe(Next(w, Overwrites(e, content)))
  {
    hide Put, Openable, NoLostUpdate, Past;
    var edit := w.edits[e];
    var blob := Blob(edit.item, edit.seen.blobVersion + 1, content);
    assert EditOk(w.store, edit);
    SealedPutKeepsSafe(w, edit, content);
    SetEditKeepsSafe(Stored(w, Put(w.token, w.store, edit.item, TokenOf(w.token, edit.seen), blob)), e, Closed);
  }

  lemma StepKeepsSafe(w: World, step: Step)
    requires Safe(w) && w.token.ByRevision? && Enabled(w, step)
    ensures Safe(Next(w, step))
  {
    match step {
      case Creates(item, content) => InsertKeepsSafe(w, item, content);
      case Views(item) =>
      case Begins(e, changes) =>
        assert EditOk(w.store, w.edits[e]);
        SetEditKeepsSafe(w, e, Next(w, step).edits[e]);
      case Fetches(e, _) =>
        assert EditOk(w.store, w.edits[e]);
        SetEditKeepsSafe(w, e, Next(w, step).edits[e]);
      case Reseals(e) =>
        assert EditOk(w.store, w.edits[e]);
        SetEditKeepsSafe(w, e, Next(w, step).edits[e]);
      case Puts(e) => PutKeepsSafe(w, e);
      case Overwrites(e, content) => OverwriteKeepsSafe(w, e, content);
      case Deletes(item) => WriteKeepsSafe(w, item, w.store.rows[item].(live := false));
      case Undeletes(item) => WriteKeepsSafe(w, item, w.store.rows[item].(live := true));
      case Restores(item, ifMatch, imageIndex) => RestoreKeepsSafe(w, item, ifMatch, imageIndex);
    }
  }

  /** No lost update and no ABA: in every run with the revision as token, every accepted edit was merged
      into exactly the row it replaced and every stored blob opens. */
  lemma {:induction false} RevisionTokenIsSafe(steps: seq<Step>)
    requires After(ByRevision, steps).Some?
    ensures After(ByRevision, steps).value.token == ByRevision
    ensures Safe(After(ByRevision, steps).value)
  {
    if steps != [] {
      var before := steps[..|steps| - 1];
      RevisionTokenIsSafe(before);
      StepKeepsSafe(After(ByRevision, before).value, steps[|steps| - 1]);
    }
  }

  // ---------------------------------------------------------------- why the token is not the blob version

  lemma Extend(token: Token, steps: seq<Step>, step: Step)
    requires After(token, steps).Some? && Enabled(After(token, steps).value, step)
    ensures After(token, steps + [step]) == Some(Next(After(token, steps).value, step))
  {
    assert (steps + [step])[..|steps|] == steps;
  }

  /** What an accepted edit must not do: drop something the row it replaced said. */
  predicate LosesUpdate(a: Accepted) {
    && Open(a.item, a.before).Some? && Open(a.item, a.after).Some?
    && Open(a.item, a.after).value != Open(a.item, a.before).value + a.changes
  }

  /** The item created and overwritten once. */
  function FirstWrites(item: string, c0: Content, c1: Content): seq<Step> {
    [] + [Creates(item, c0)] + [Views(item)] + [Overwrites(0, c1)]
  }

  function RowAt(item: string, version: nat, content: Content, revision: nat): Row {
    Row(Blob(item, version, content), version, revision, true)
  }

  lemma FirstWritesWorld(item: string, c0: Content, c1: Content)
    ensures After(ByBlobVersion, FirstWrites(item, c0, c1))
         == Some(World(ByBlobVersion,
                       Store(map[item := RowAt(item, 2, c1, 2)], map[item := [RowAt(item, 1, c0, 1)]]), [Closed], []))
  {
    var t := ByBlobVersion;
    Extend(t, [], Creates(item, c0));
    Extend(t, [] + [Creates(item, c0)], Views(item));
    assert After(t, [] + [Creates(item, c0)] + [Views(item)]).value.edits == [Viewing(item, RowAt(item, 1, c0, 1))];
    var viewed := After(t, [] + [Creates(item, c0)] + [Views(item)]).value;
    assert viewed.store == Store(map[item := RowAt(item, 1, c0, 1)], map[item := []]);
    Extend(t, [] + [Creates(item, c0)] + [Views(item)], Overwrites(0, c1));
    var w := After(t, FirstWrites(item, c0, c1)).value;
    assert w == Next(viewed, Overwrites(0, c1));
    assert w.store.rows == map[item := RowAt(item, 2, c1, 2)];
    assert viewed.store.images[item] + [viewed.store.rows[item]] == [RowAt(item, 1, c0, 1)];
    assert w.store.images == map[item := [RowAt(item, 1, c0, 1)]];
    assert w.edits == [Closed] && w.accepted == [];
  }

  /** An edit that has re-read, merged and sealed, and is about to be sent. */
  lemma PreparedEdit(t: Token, steps: seq<Step>, item: string, row: Row, changes: Content)
    requires After(t, steps).Some?
    requires var w := After(t, steps).value;
             Live(w.store, item) && w.store.rows[item] == row && Open(item, row).Some? && w.edits == [Closed]
    ensures var run := steps + [Views(item)] + [Begins(1, changes)] + [Fetches(1, true)] + [Reseals(1)];
            After(t, run) == Some(After(t, steps).value.(edits := [Closed,
              Putting(item, row, changes, row, Blob(item, row.blobVersion + 1, row.blob.content + changes))]))
  {
    hide After;
    var s1 := steps + [Views(item)];
    var s2 := s1 + [Begins(1, changes)];
    var s3 := s2 + [Fetches(1, true)];
    Extend(t, steps, Views(item));
    assert After(t, s1).value.edits == [Closed, Viewing(item, row)];
    Extend(t, s1, Begins(1, changes));
    assert After(t, s2).value.edits == [Closed, Fetching(item, row, changes)];
    Extend(t, s2, Fetches(1, true));
    assert After(t, s3).value.edits == [Closed, Merging(item, row, changes, Some(row))];
    Extend(t, s3, Reseals(1));
    assert After(t, s3 + [Reseals(1)]).value.edits
        == [Closed, Putting(item, row, changes, row, Blob(item, row.blobVersion + 1, row.blob.content + changes))];
  }

  /** The first version is put back and overwritten again: the version number recurs. */
  lemma RestoredAndOverwritten(steps: seq<Step>, item: string, c0: Content, c1: Content, c2: Content, edit: Edit)
    requires After(ByBlobVersion, steps)
          == Some(World(ByBlobVersion,
                        Store(map[item := RowAt(item, 2, c1, 2)], map[item := [RowAt(item, 1, c0, 1)]]), [Closed, edit], []))
    ensures var run := steps + [Restores(item, 2, 0)] + [Views(item)] + [Overwrites(2, c2)];
            && After(ByBlobVersion, run).Some?
            && var w := After(ByBlobVersion, run).value;
               && w.token == ByBlobVersion && Live(w.store, item) && w.store.rows[item] == RowAt(item, 2, c2, 4)
               && w.edits == [Closed, edit, Closed] && w.accepted == []
  {
    hide After;
    var t := ByBlobVersion;
    var s1 := steps + [Restores(item, 2, 0)];
    var s2 := s1 + [Views(item)];
    Extend(t, steps, Restores(item, 2, 0));
    assert After(t, s1).value.store.rows[item] == RowAt(item, 1, c0, 3);
    Extend(t, s1, Views(item));
    assert After(t, s2).value.edits == [Closed, edit, Viewing(item, RowAt(item, 1, c0, 3))];
    Extend(t, s2, Overwrites(2, c2));
  }

  /** With the blob version as token a restore brings an old number back, a later write repeats it, and a
      stale edit passes the check: what the later write said is gone. */
  lemma BlobVersionTokenLosesUpdates(item: string, c0: Content, c1: Content, c2: Content, changes: Content)
    returns (run: seq<Step>)
    requires c2 + changes != c1 + changes
    ensures After(ByBlobVersion, run).Some?
    ensures var w := After(ByBlobVersion, run).value; |w.accepted| == 1 && LosesUpdate(w.accepted[0])
  {
    hide After, FirstWrites;
    var t := ByBlobVersion;
    var start := FirstWrites(item, c0, c1);
    FirstWritesWorld(item, c0, c1);
    PreparedEdit(t, start, item, RowAt(item, 2, c1, 2), changes);
    var prepared := start + [Views(item)] + [Begins(1, changes)] + [Fetches(1, true)] + [Reseals(1)];
    var stale := Putting(item, RowAt(item, 2, c1, 2), changes, RowAt(item, 2, c1, 2), Blob(item, 3, c1 + changes));
    RestoredAndOverwritten(prepared, item, c0, c1, c2, stale);
    var repeated := prepared + [Restores(item, 2, 0)] + [Views(item)] + [Overwrites(2, c2)];
    Extend(t, repeated, Puts(1));
    run := repeated + [Puts(1)];
    assert After(t, run).value.accepted
        == [Accepted(item, RowAt(item, 2, c1, 2), changes, RowAt(item, 2, c2, 4), RowAt(item, 3, c1 + changes, 5))];
  }
}
