/** What the vault service's rows go through, with the revision as token: every version is kept, every change is
    one of six, and of two edits of one row only the first is accepted. */
module WriteHistory {
  import opened WriteProtocol
  import opened Wrappers

  // ---------------------------------------------------------------- every version is kept

  /** The captured images and the current row are the revisions one, two, three and so on, none missing. */
  ghost predicate Numbered(store: Store, item: string) {
    item in store.rows && item in store.images ==>
      && store.rows[item].revision == |store.images[item]| + 1
      && forall i :: 0 <= i < |store.images[item]| ==> store.images[item][i].revision == i + 1
  }

  /** What an item was stays in front of what it becomes. */
  predicate Extends(store: Store, store': Store, item: string) {
    item in store.rows && item in store.images ==>
      && item in store'.rows && item in store'.images
      && ((store'.rows[item] == store.rows[item] && store'.images[item] == store.images[item])
          || store'.images[item] == store.images[item] + [store.rows[item]])
  }

  lemma StepNumbers(w: World, step: Step, item: string)
    requires Safe(w) && Enabled(w, step) && Numbered(w.store, item)
    ensures Numbered(Next(w, step).store, item) && Extends(w.store, Next(w, step).store, item)
  {
    hide Open, EditOk, Reseal;
  }

  /** In every run, the service can show every version an item ever had, in order. */
  lemma {:induction false} NothingIsForgotten(steps: seq<Step>, item: string)
    requires After(ByRevision, steps).Some?
    ensures Numbered(After(ByRevision, steps).value.store, item)
  {
    if steps != [] {
      hide Safe, Numbered, Next, Enabled;
      var before := steps[..|steps| - 1];
      NothingIsForgotten(before, item);
      RevisionTokenIsSafe(before);
      StepNumbers(After(ByRevision, before).value, steps[|steps| - 1], item);
    } else {
      assert After(ByRevision, steps) == Some(World(ByRevision, Store(map[], map[]), [], []));
    }
  }

  // ---------------------------------------------------------------- every change is explained

  /** What a step made of the row `before`. */
  ghost predicate Explains(w: World, step: Step, item: string, before: Row, after: Row)
    requires Enabled(w, step) && item in w.store.images
  {
    && after.revision == before.revision + 1
    && match step
       case Puts(e) =>
         && w.edits[e].item == item && before == w.edits[e].seen && before.live && after.live
         && after.blobVersion == before.blobVersion + 1
         && Open(item, before).Some? && Open(item, after) == Some(Open(item, before).value + w.edits[e].changes)
       case Overwrites(e, content) =>
         && w.edits[e].item == item && before == w.edits[e].seen && before.live && after.live
         && after.blobVersion == before.blobVersion + 1 && Open(item, after) == Some(content)
       case Deletes(i) => i == item && before.live && after == before.(live := false, revision := after.revision)
       case Undeletes(i) => i == item && !before.live && after == before.(live := true, revision := after.revision)
       case Restores(i, ifMatch, n) =>
         && i == item && before.live && after.live && before.revision == ifMatch
         && n < |w.store.images[item]| && w.store.images[item][n].live
         && after.blobVersion == w.store.images[item][n].blobVersion
         && Open(item, after) == Open(item, w.store.images[item][n])
       case _ => false
  }

  lemma PutExplained(w: World, e: nat, item: string)
    requires Safe(w) && w.token.ByRevision? && Enabled(w, Puts(e))
    requires item in w.store.rows && item in w.store.images
    ensures item in PutEdit(w, e).store.rows
    ensures PutEdit(w, e).store.rows[item] == w.store.rows[item]
            || Explains(w, Puts(e), item, w.store.rows[item], PutEdit(w, e).store.rows[item])
  {
    hide Reseal;
    var edit := w.edits[e];
    if Put(w.token, w.store, edit.item, TokenOf(w.token, edit.seen), edit.blob).Some? && edit.item == item {
      AcceptedPutIsExact(w, e);
    }
  }

  lemma OverwriteExplained(w: World, e: nat, content: Content, item: string)
    requires Safe(w) && w.token.ByRevision? && Enabled(w, Overwrites(e, content))
    requires item in w.store.rows && item in w.store.images
    ensures item in Next(w, Overwrites(e, content)).store.rows
    ensures Next(w, Overwrites(e, content)).store.rows[item] == w.store.rows[item]
            || Explains(w, Overwrites(e, content), item, w.store.rows[item],
                        Next(w, Overwrites(e, content)).store.rows[item])
  {
    hide Reseal;
    assert EditOk(w.store, w.edits[e]);
  }

  lemma RestoreExplained(w: World, item: string, ifMatch: nat, n: nat, other: string)
    requires Safe(w) && w.token.ByRevision? && other in w.store.rows && other in w.store.images
    ensures var w' := Next(w, Restores(item, ifMatch, n));
            && other in w'.store.rows
            && (w'.store.rows[other] == w.store.rows[other]
                || Explains(w, Restores(item, ifMatch, n), other, w.store.rows[other], w'.store.rows[other]))
  {
    hide Reseal, EditOk;
  }

  lemma OtherExplained(w: World, step: Step, item: string)
    requires Safe(w) && Enabled(w, step) && item in w.store.rows && item in w.store.images
    requires !step.Puts? && !step.Overwrites? && !step.Restores?
    ensures item in Next(w, step).store.rows
    ensures Next(w, step).store.rows[item] == w.store.rows[item]
            || Explains(w, step, item, w.store.rows[item], Next(w, step).store.rows[item])
  {
    hide Reseal, EditOk, Open;
  }

  /** In every run, a row changes only by an edit or an overwrite of exactly that row, a delete, an undelete, or a
      restore of a version that was live. */
  lemma EveryChangeIsExplained(steps: seq<Step>, step: Step, item: string)
    requires After(ByRevision, steps).Some? && Enabled(After(ByRevision, steps).value, step)
    requires item in After(ByRevision, steps).value.store.rows
    ensures var w := After(ByRevision, steps).value; var w' := Next(w, step);
            && item in w.store.images && item in w'.store.rows
            && (w'.store.rows[item] == w.store.rows[item]
                || Explains(w, step, item, w.store.rows[item], w'.store.rows[item]))
  {
    hide After, Next, Safe, Explains;
    RevisionTokenIsSafe(steps);
    var w := After(ByRevision, steps).value;
    RowsHaveImages(w, item);
    match step {
      case Puts(e) => PutIsNext(w, e); PutExplained(w, e, item);
      case Overwrites(e, content) => OverwriteExplained(w, e, content, item);
      case Restores(i, ifMatch, n) => RestoreExplained(w, i, ifMatch, n, item);
      case _ => OtherExplained(w, step, item);
    }
  }

  lemma PutIsNext(w: World, e: nat)
    requires Enabled(w, Puts(e))
    ensures Next(w, Puts(e)) == PutEdit(w, e)
  {
  }

  lemma RowsHaveImages(w: World, item: string)
    requires Safe(w)
    ensures item in w.store.rows <==> item in w.store.images
  {
  }

  // ---------------------------------------------------------------- when a write is accepted

  /** In every run, an edit that has been merged is accepted exactly when the item's row is live and still the
      one its user saw; so is an overwrite; a create exactly when there is no such item yet; and a restore exactly
      when the row is live and at the revision named, and the version asked for exists and was live. */
  lemma AcceptedIff(steps: seq<Step>, step: Step)
    requires After(ByRevision, steps).Some? && Enabled(After(ByRevision, steps).value, step)
    ensures var w := After(ByRevision, steps).value; var w' := Next(w, step);
            match step
            case Puts(e) =>
              var edit := w.edits[e];
              |w'.accepted| == |w.accepted| + 1 <==> Live(w.store, edit.item) && w.store.rows[edit.item] == edit.seen
            case Overwrites(e, _) =>
              var edit := w.edits[e];
              w'.store != w.store <==> Live(w.store, edit.item) && w.store.rows[edit.item] == edit.seen
            case Creates(item, content) =>
              if item in w.store.rows then w'.store == w.store
              else item in w'.store.rows && w'.store.rows[item] == Row(Blob(item, 1, content), 1, 1, true)
            case Restores(item, ifMatch, n) =>
              w'.store != w.store <==>
                && Live(w.store, item) && w.store.rows[item].revision == ifMatch
                && n < |w.store.images[item]| && w.store.images[item][n].live
            case _ => true
  {
    RevisionTokenIsSafe(steps);
    hide After, Open, Reseal;
    var w := After(ByRevision, steps).value;
    match step {
      case Puts(e) => assert EditOk(w.store, w.edits[e]);
      case Overwrites(e, content) =>
        assert EditOk(w.store, w.edits[e]);
        if Live(w.store, w.edits[e].item) { WriteChanges(w.store, w.edits[e].item); }
      case Restores(item, _, _) => if Live(w.store, item) { WriteChanges(w.store, item); }
      case _ =>
    }
  }

  lemma WriteChanges(store: Store, item: string)
    requires item in store.rows && item in store.images
    ensures forall row :: Write(store, item, row) != store
  {
    forall row ensures Write(store, item, row) != store {
      assert Write(store, item, row).rows[item].revision == store.rows[item].revision + 1;
    }
  }

  /** What an edit re-read opens: a page holds rows, and every row opens. */
  ghost predicate PagesOpen(w: World) {
    forall e :: 0 <= e < |w.edits| && w.edits[e].Merging? && w.edits[e].page.Some? ==>
      Open(w.edits[e].item, w.edits[e].page.value).Some?
  }

  lemma StepKeepsPages(w: World, step: Step)
    requires Safe(w) && PagesOpen(w) && Enabled(w, step)
    ensures PagesOpen(Next(w, step))
  {
    hide EditOk, NoLostUpdate, Put, Restore, Write, Insert;
  }

  lemma {:induction false} AlwaysPagesOpen(steps: seq<Step>)
    requires After(ByRevision, steps).Some?
    ensures PagesOpen(After(ByRevision, steps).value)
  {
    if steps != [] {
      hide Safe, PagesOpen, Next, Enabled;
      var before := steps[..|steps| - 1];
      AlwaysPagesOpen(before);
      RevisionTokenIsSafe(before);
      StepKeepsPages(After(ByRevision, before).value, steps[|steps| - 1]);
    }
  }

  /** In every run, an edit goes on to its PUT exactly when the item was live and on the page it re-read: retired,
      gone, or past the newest two hundred, the edit is over without a write. */
  lemma GoesOnIffListed(steps: seq<Step>, e: nat, listed: bool)
    requires After(ByRevision, steps).Some?
    ensures var w := After(ByRevision, steps).value;
            && (Enabled(w, Fetches(e, listed)) ==>
                  var edit := Next(w, Fetches(e, listed)).edits[e];
                  && edit.Merging?
                  && edit.page == if listed && Live(w.store, w.edits[e].item) then Some(w.store.rows[w.edits[e].item])
                                  else None)
            && (Enabled(w, Reseals(e)) ==>
                  var edit := Next(w, Reseals(e)).edits[e];
                  if w.edits[e].page.None? then edit == Closed
                  else edit.Putting? && edit.base == w.edits[e].page.value && edit.seen == w.edits[e].seen)
  {
    hide After, Next, PagesOpen;
    AlwaysPagesOpen(steps);
    var w := After(ByRevision, steps).value;
    if Enabled(w, Fetches(e, listed)) { FetchFinds(w, e, listed); }
    if Enabled(w, Reseals(e)) { ResealGoesOn(w, e); }
  }

  lemma FetchFinds(w: World, e: nat, listed: bool)
    requires Enabled(w, Fetches(e, listed))
    ensures var edit := Next(w, Fetches(e, listed)).edits[e];
            && edit.Merging?
            && edit.page == if listed && Live(w.store, w.edits[e].item) then Some(w.store.rows[w.edits[e].item])
                            else None
  {
  }

  lemma ResealGoesOn(w: World, e: nat)
    requires PagesOpen(w) && Enabled(w, Reseals(e))
    ensures var edit := Next(w, Reseals(e)).edits[e];
            if w.edits[e].page.None? then edit == Closed
            else edit.Putting? && edit.base == w.edits[e].page.value && edit.seen == w.edits[e].seen
  {
  }

  // ---------------------------------------------------------------- the first writer wins

  /** Where the accepted edits of an item stand among its revisions. */
  ghost predicate Ordered(w: World) {
    && (forall a :: 0 <= a < |w.accepted| ==>
          && w.accepted[a].item in w.store.rows
          && w.accepted[a].after.revision <= w.store.rows[w.accepted[a].item].revision)
    && (forall a, b :: 0 <= a < b < |w.accepted| && w.accepted[a].item == w.accepted[b].item ==>
          w.accepted[a].after.revision <= w.accepted[b].before.revision)
  }

  lemma StepKeepsOrdered(w: World, step: Step)
    requires Safe(w) && Ordered(w) && w.token.ByRevision? && Enabled(w, step)
    ensures Ordered(Next(w, step))
  {
    hide Open, Reseal, EditOk, Openable, NoLostUpdate;
    RevisionsGrow(w, step);
  }

  lemma RevisionsGrow(w: World, step: Step)
    requires Enabled(w, step)
    ensures forall item :: item in w.store.rows ==>
              item in Next(w, step).store.rows && w.store.rows[item].revision <= Next(w, step).store.rows[item].revision
  {
    hide Open, Reseal;
  }

  lemma {:induction false} AlwaysOrdered(steps: seq<Step>)
    requires After(ByRevision, steps).Some?
    ensures Ordered(After(ByRevision, steps).value)
  {
    if steps != [] {
      hide Safe, Ordered, Next, Enabled;
      var before := steps[..|steps| - 1];
      AlwaysOrdered(before);
      RevisionTokenIsSafe(before);
      StepKeepsOrdered(After(ByRevision, before).value, steps[|steps| - 1]);
    }
  }

  /** In every run, no two accepted edits of an item started from the same row: whoever saw it and came second was
      refused. */
  lemma FirstWriterWins(steps: seq<Step>, a: nat, b: nat)
    requires After(ByRevision, steps).Some?
    requires var w := After(ByRevision, steps).value;
             a < b < |w.accepted| && w.accepted[a].item == w.accepted[b].item
    ensures var w := After(ByRevision, steps).value; w.accepted[a].seen.revision < w.accepted[b].seen.revision
  {
    AlwaysOrdered(steps);
    RevisionTokenIsSafe(steps);
    var w := After(ByRevision, steps).value;
    assert NoLostUpdate(w.accepted[a]) && NoLostUpdate(w.accepted[b]);
  }
}
