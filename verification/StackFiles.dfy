/** Writing the environment file: the overwrite guard, and re-addressing a file that is already there. */
module StackFiles {
  import opened CredentialGraph
  import opened EnvFile
  import opened EnvGeneration
  import opened EnvLookup
  import opened EnvPrinting
  import opened OrderedMap
  import opened Readdressing
  import opened Topology
  import opened Wrappers

  type Files = map<string, string>

  datatype WriteOutcome = Wrote(path: string) | TargetExists | SourceMissing | NotDerived(why: DeriveOutcome)

  /** The filesystem seam. */
  class EnvFileIo {
    var files: Files

    constructor (contents: Files)
      ensures files == contents
    {
      files := contents;
    }

    method Write(path: string, contents: string)
      modifies this
      ensures files == old(files)[path := contents]
    {
      files := files[path := contents];
    }
  }

  /** The outcome and the files afterwards. */
  function Stored(files: Files, plan: Plan, target: string, force: bool, from: Option<string>, mints: Mints)
      : (WriteOutcome, Files)
  {
    if target in files && !force then (TargetExists, files)
    else if from.None? then (Wrote(target), files[target := Rendered(Generated(plan, mints), plan.mode)])
    else if from.value !in files then (SourceMissing, files)
    else
      var derived := Derive(plan, Parsed(files[from.value]), mints);
      if derived.Derived? then (Wrote(target), files[target := Rendered(derived.sections, plan.mode)])
      else (NotDerived(derived), files)
  }

  method WriteStackEnv(io: EnvFileIo, plan: Plan, target: string, force: bool, from: Option<string>, mints: Mints)
      returns (outcome: WriteOutcome)
    modifies io
    ensures (outcome, io.files) == Stored(old(io.files), plan, target, force, from, mints)
  {
    hide Derive, Parsed, Rendered, Generated;
    if target in io.files && !force {
      return TargetExists;
    }
    if from.Some? {
      if from.value !in io.files {
        return SourceMissing;
      }
      var source := ParseEnvFile(io.files[from.value]);
      var derived := DeriveEnv(plan, source, mints);
      if !derived.Derived? {
        return NotDerived(derived);
      }
      var contents := RenderEnvFile(derived.sections, plan.mode);
      io.Write(target, contents);
      return Wrote(target);
    }
    var sections := GenerateEnv(plan, mints);
    var contents := RenderEnvFile(sections, plan.mode);
    io.Write(target, contents);
    outcome := Wrote(target);
  }

  /** Without `force` no existing file changes, and a refusal changes nothing at all. */
  lemma NeverClobbers(files: Files, plan: Plan, target: string, force: bool, from: Option<string>, mints: Mints,
      path: string)
    requires path in files
    ensures var (outcome, after) := Stored(files, plan, target, force, from, mints);
            && (!force || path != target || !outcome.Wrote? ==> path in after && after[path] == files[path])
            && (!outcome.Wrote? ==> after == files)
  {
    hide Derive, Parsed, Rendered, Generated;
  }

  /** What is written, and when: an existing target needs `force`; without a source the file is generated; with one
      it is derived from that source or nothing is written, so that no key is ever minted anew in its place. */
  lemma WritesExactly(files: Files, plan: Plan, target: string, force: bool, from: Option<string>, mints: Mints)
    ensures var (outcome, after) := Stored(files, plan, target, force, from, mints);
            var barred := target in files && !force;
            && (outcome == TargetExists <==> barred)
            && (outcome == SourceMissing <==> !barred && from.Some? && from.value !in files)
            && (outcome.Wrote? <==>
                  && !barred
                  && (from.Some? ==> from.value in files && Derive(plan, Parsed(files[from.value]), mints).Derived?))
            && (outcome.Wrote? ==>
                  && outcome.path == target && after.Keys == files.Keys + {target}
                  && after[target] ==
                     (if from.None? then Rendered(Generated(plan, mints), plan.mode)
                      else Rendered(Derive(plan, Parsed(files[from.value]), mints).sections, plan.mode)))
  {
    hide Derive, Parsed, Rendered, Generated;
  }

  /** Writing a file for `a` and re-addressing it to `b` leaves, byte for byte, the file that would have been
      written for `b` from the same mints; re-addressing itself never fails. */
  lemma ReaddressingFilesCommutes(files: Files, graph: Graph, mode: Mode, a: Addressing, b: Addressing,
      source: string, target: string, mints: Mints, newMints: Mints)
    requires WellFormed(graph) && CleanMints(mints) && target != source
    ensures var planA, planB := Plan(graph, mode, a), Plan(graph, mode, b);
            var first := Stored(files, planA, source, true, None, mints).1;
            Stored(first, planB, target, true, Some(source), newMints) ==
            (Wrote(target), first[target := Rendered(Generated(planB, mints), mode)])
  {
    hide WellFormed, CleanMints, Derive, Parsed, Rendered, Generated, Environment;
    FileGivesEnvironment(Plan(graph, mode, a), mints);
    ReaddressingCommutes(graph, mode, a, b, mints, newMints);
  }
}
