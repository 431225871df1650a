/** What becomes of a fix, case by case: from the merge probe to the next attempt, the next tier or the end. */
module Ladder {
  import opened Outcomes
  import opened Text
  import opened Workloads
  import opened Coders
  import opened Mergeability
  import opened PrFix
  import opened PrFixLaws
  import Build

  // ----- The kept head of a feedback line

  /** The words of a text: `s.split()`. */
  function Words(s: string): seq<string> {
    if s == "" then []
    else if IsSpace(s[0]) then Words(s[1..])
    else if |s| == 1 || IsSpace(s[1]) then [[s[0]]] + Words(s[1..])
    else
      var rest := Words(s[1..]);
      if rest == [] then [[s[0]]] else [[s[0]] + rest[0]] + rest[1..]
  }

  function Joined(words: seq<string>): string {
    if words == [] then "" else if |words| == 1 then words[0] else words[0] + (" " + Joined(words[1..]))
  }

  predicate IsWord(w: string) {
    w != "" && forall c :: c in w ==> !IsSpace(c)
  }

  lemma {:induction false} WordsAreWords(s: string)
    ensures forall w :: w in Words(s) ==> IsWord(w)
    ensures Words(s) == [] <==> forall i :: 0 <= i < |s| ==> IsSpace(s[i])
  {
    if s != "" {
      WordsAreWords(s[1..]);
      var rest := Words(s[1..]);
      assert forall i :: 0 < i < |s| ==> s[i] == s[1..][i - 1];
      if !IsSpace(s[0]) && rest != [] {
        assert IsWord(rest[0]) && IsWord([s[0]] + rest[0]);
        assert forall w :: w in rest[1..] ==> w in rest;
      }
    }
  }

  /** What the squeeze goes on to write once something was written: after a gap the words are set off by a space. */
  function Rest(words: seq<string>, joined: bool): string {
    if words == [] then "" else if joined then Joined(words) else " " + Joined(words)
  }

  lemma {:induction false} JoinedCons(w: string, words: seq<string>)
    ensures Joined([w] + words) == w + Rest(words, false)
  {
    assert ([w] + words)[1..] == words;
  }

  lemma {:induction false} JoinedHead(c: char, words: seq<string>)
    requires words != []
    ensures Joined([[c] + words[0]] + words[1..]) == [c] + Joined(words)
  {
    JoinedCons([c] + words[0], words[1..]);
    JoinedCons(words[0], words[1..]);
    assert words == [words[0]] + words[1..];
    assert [c] + words[0] + Rest(words[1..], false) == [c] + (words[0] + Rest(words[1..], false));
  }

  /** The three ways the squeeze can stand: nothing written yet, inside a word or right after one, and after a gap. */
  predicate Squeezed(s: string) {
    && Squeeze(s, false, false) == Joined(Words(s))
    && Squeeze(s, true, true) == Rest(Words(s), false)
    && Squeeze(s, true, false) == Rest(Words(s), s != "" && !IsSpace(s[0]))
  }

  lemma WordGoesOn(s: string)
    requires s != "" && !IsSpace(s[0]) && Squeezed(s[1..])
    ensures [s[0]] + Squeeze(s[1..], true, false) == Joined(Words(s))
  {
    WordsAreWords(s[1..]);
    var rest := Words(s[1..]);
    if |s| == 1 || IsSpace(s[1]) {
      JoinedCons([s[0]], rest);
    } else {
      assert s[1..][0] == s[1];
      JoinedHead(s[0], rest);
    }
  }

  lemma WordIsSqueezed(s: string)
    requires s != "" && !IsSpace(s[0]) && Squeezed(s[1..])
    ensures Squeezed(s)
  {
    WordGoesOn(s);
    assert Words(s) != [];
    assert Squeeze(s, false, false) == [s[0]] + Squeeze(s[1..], true, false) == Squeeze(s, true, false);
    assert Squeeze(s, true, true) == " " + [s[0]] + Squeeze(s[1..], true, false) == " " + ([s[0]] + Squeeze(s[1..], true, false));
  }

  lemma SpaceIsSqueezed(s: string)
    requires s != "" && IsSpace(s[0]) && Squeezed(s[1..])
    ensures Squeezed(s)
  {
  }

  lemma {:induction false} SqueezeIs(s: string)
    ensures Squeezed(s)
  {
    if s != "" {
      SqueezeIs(s[1..]);
      if IsSpace(s[0]) {
        SpaceIsSqueezed(s);
      } else {
        WordIsSqueezed(s);
      }
    }
  }

  /** The head kept of the first feedback line: its words in lower case, one space between them, 160 characters at most. */
  lemma HeadIs(feedback: seq<string>)
    ensures var words := if feedback == [] then [] else Words(LowerText(Strip(feedback[0])));
      FeedbackHead(feedback) ==
        if words == [] then "no-feedback" else if |Joined(words)| <= 160 then Joined(words) else Joined(words)[..160]
  {
    if feedback != [] {
      var text := LowerText(Strip(feedback[0]));
      SqueezeIs(text);
      WordsAreWords(text);
      if Words(text) != [] {
        JoinedCons(Words(text)[0], Words(text)[1..]);
        assert Words(text) == [Words(text)[0]] + Words(text)[1..];
        assert Words(text)[0] in Words(text);
      }
    }
  }

  // ----- What the probe says

  /** A fix can be asked about when it names a repo and a pull request number. */
  lemma KeyedExactly(w: Workload)
    ensures Keyed(w) <==>
      && PrFixRepo in w.notes && w.notes[PrFixRepo] != ""
      && PrFixNumber in w.notes && w.notes[PrFixNumber] != "" && AllDigits(w.notes[PrFixNumber])
  {
  }

  /** A conflicting pull request whose branch was brought up to date is looked at again; any other look is final. */
  lemma ProbeIs(w: Workload, a: FixAnswers)
    ensures !Keyed(w) ==> LastProbe(w, a) == Returned(MergeOk)
    ensures Keyed(w) && a.probe.Raised? ==> LastProbe(w, a) == Raised
    ensures Keyed(w) && a.probe.Returned? && Classify(a.probe.value) in {Dirty, Conflicting} && a.update == Yes ==>
      LastProbe(w, a) == if a.reprobe.Raised? then Raised else Returned(Classify(a.reprobe.value))
    ensures Keyed(w) && a.probe.Returned? && !(Classify(a.probe.value) in {Dirty, Conflicting} && a.update == Yes) ==>
      LastProbe(w, a) == Returned(Classify(a.probe.value))
  {
  }

  // ----- What is decided

  /** Nobody is kept waiting for the coder: slots are not declared, it has no name, or it has a slot. */
  predicate HasRoom(cfg: FixConfig, coder: Option<string>, load: Load) {
    cfg.slots == map[] || coder == None || coder == Some("") || Held(load, coder.value) < SlotsFor(coder.value, cfg.slots)
  }

  /** A fix that still runs is left alone, and one that cannot be judged is reported. */
  lemma OnlyFinishedCounts(cfg: FixConfig, w: Workload, a: FixAnswers, load: Load)
    ensures w.phase !in {Succeeded, Completed, Failed} ==> DecideFix(cfg, w, a, load) == Ignore
    ensures w.phase in {Succeeded, Completed, Failed} && (AttemptNote(w).None? || LastProbe(w, a).Raised?) ==>
      DecideFix(cfg, w, a, load) == Leave(FixError)
  {
  }

  /** What the status of the pull request alone settles, whatever the attempts and slots. */
  lemma StatusSettles(cfg: FixConfig, w: Workload, a: FixAnswers, load: Load)
    requires w.phase in {Succeeded, Completed, Failed} && AttemptNote(w).Some? && LastProbe(w, a).Returned?
    ensures var move, status := DecideFix(cfg, w, a, load), LastProbe(w, a).value;
      && (move == Settle(FIXED, PrMerged, PrMarkFailed) <==> status == Merged)
      && (move == Settle(STALE, PrClosed, PrMarkFailed) <==> status == ClosedPr)
      && (move == Settle(FIXED, Fixed, MarkFailed) <==> Keyed(w) && status == MergeOk && w.phase != Failed)
      && (move.Settle? ==> Keyed(w) && status in {Merged, ClosedPr, MergeOk})
      && (move == Drop(ChangesWanted) <==> status == ChangesRequested)
      && (move == Leave(WaitBlocked) <==> status == BlockedPr && AttemptNote(w).value < cfg.maxAttempts)
      && (move == Leave(WaitChecks) <==> status == ChecksPending && AttemptNote(w).value < cfg.maxAttempts)
  {
  }

  /** Nothing of that holds and attempts are left on this tier. */
  predicate TriesAgain(cfg: FixConfig, w: Workload, a: FixAnswers) {
    && w.phase in {Succeeded, Completed, Failed} && AttemptNote(w).Some? && AttemptNote(w).value < cfg.maxAttempts
    && LastProbe(w, a).Returned? && LastProbe(w, a).value in {MergeOk, Dirty, Conflicting, ChecksFailed}
    && (LastProbe(w, a).value == MergeOk && Keyed(w) ==> w.phase == Failed)
  }

  /** The surface the tick reports is a new one. */
  predicate NewSurface(w: Workload, a: FixAnswers) {
    && Signature in w.notes && w.notes[Signature] != ""
    && Keyed(w) && a.signature.Returned? && a.signature.value != "" && a.signature.value != w.notes[Signature]
  }

  /** The next attempt of the same fix on its tier, by its annotations. */
  predicate IsNext(w: Workload, next: Workload, attempt: int, progress: int) {
    && next.name == w.name && next.lane == w.lane && next.spec == w.spec && next.createdBy == w.createdBy
    && AttemptNote(next) == Some(attempt) && ProgressOf(next) == progress
  }

  lemma AgainDecides(cfg: FixConfig, w: Workload, a: FixAnswers, load: Load)
    requires TriesAgain(cfg, w, a)
    ensures DecideFix(cfg, w, a, load) == SameTierMove(cfg, w, a, AttemptNote(w).value, load)
  {
  }

  lemma SurfaceProgresses(w: Workload, a: FixAnswers)
    ensures Progressed(w, a) <==> NewSurface(w, a)
  {
  }

  /** While its coder has room, a fix that meets the same surface uses up an attempt. */
  lemma SameSurfaceTries(cfg: FixConfig, w: Workload, a: FixAnswers, attempt: int, load: Load)
    requires HasRoom(cfg, CurrentCoder(w.spec.pipeline), load) && !NewSurface(w, a)
    ensures var move := SameTierMove(cfg, w, a, attempt, load);
      && move.Remake? && move.tag == RetrySame && move.coder == CurrentCoder(w.spec.pipeline)
      && IsNext(w, move.next, attempt + 1, ProgressOf(w))
  {
    SurfaceProgresses(w, a);
    NotesReadBack(w, attempt + 1, NewSignature(w, a), 0);
  }

  /** One that meets a new surface starts again at attempt 1 and uses up a progress step; with none left it is given up. */
  lemma NewSurfaceProgresses(cfg: FixConfig, w: Workload, a: FixAnswers, attempt: int, load: Load)
    requires HasRoom(cfg, CurrentCoder(w.spec.pipeline), load) && NewSurface(w, a)
    ensures var move := SameTierMove(cfg, w, a, attempt, load);
      if ProgressOf(w) >= cfg.progressMax then move == BlockAndDrop
      else
        move.Remake? && move.tag == RetryProgress && move.coder == CurrentCoder(w.spec.pipeline)
        && IsNext(w, move.next, 1, ProgressOf(w) + 1)
  {
    SurfaceProgresses(w, a);
    NotesReadBack(w, 1, NewSignature(w, a), ProgressOf(w) + 1);
  }

  /** Without room it waits as it is. */
  lemma FullCoderDefers(cfg: FixConfig, w: Workload, a: FixAnswers, attempt: int, load: Load)
    requires !HasRoom(cfg, CurrentCoder(w.spec.pipeline), load)
    ensures SameTierMove(cfg, w, a, attempt, load) == Leave(RetryDeferred(CurrentCoder(w.spec.pipeline).value))
  {
  }

  // ----- What is done about it

  /** A settled fix is marked first, and deleted exactly when Dispatch took the mark. */
  lemma SettleEffect(objects: Objects, load: Load, w: Workload, a: FixAnswers, status: MarkStatus, done: FixTag, failed: FixTag)
    requires w.name in objects
    ensures var e := Effect(objects, load, w, a, Settle(status, done, failed));
      && (w.name !in e.objects <==> a.mark == Yes && a.delete != RaisedKept)
      && e.marks == (if Keyed(w) then [MarkSent(w.name, status)] else []) && e.load == load
      && e.tag == Some(if a.mark == Yes && a.delete == Gone then done else if a.mark == No then failed else FixError)
  {
  }

  /** One given up is marked BLOCKED; only for lack of progress is it deleted too, unless the mark raised. */
  lemma BlockEffect(objects: Objects, load: Load, w: Workload, a: FixAnswers)
    requires w.name in objects
    ensures var e, f := Effect(objects, load, w, a, BlockAndDrop), Effect(objects, load, w, a, BlockAndLeave);
      var raised := Keyed(w) && a.mark == Raises;
      && e.marks == f.marks == (if Keyed(w) then [MarkSent(w.name, BLOCKED)] else [])
      && (w.name !in e.objects <==> !raised && a.delete != RaisedKept) && f.objects == objects
      && e.tag == Some(if !raised && a.delete == Gone then ProgressGiveup else FixError)
      && f.tag == Some(if raised then FixError else Giveup)
  {
  }

  /** One recreated is reported and charged exactly when the delete and the create both went well; an exception ends it there. */
  lemma RemakeDoes(
    objects: Objects, load: Load, w: Workload, a: FixAnswers, next: Workload, coder: Option<string>, tag: FixTag, c: string)
    requires w.name in objects && next.name == w.name
    ensures var e := Effect(objects, load, w, a, Remake(next, coder, tag));
      && e.tag == Some(if a.delete == Gone && a.create == Stored then tag else FixError) && e.marks == []
      && (a.delete == Gone && a.create != RaisedAbsent ==> w.name in e.objects && e.objects[w.name] == next)
      && (w.name !in e.objects <==> a.delete == RaisedGone || (a.delete == Gone && a.create == RaisedAbsent))
      && (a.delete == RaisedKept ==> e.objects == objects)
      && Held(e.load, c) == Held(load, c) + (if coder == Some(c) && a.delete == Gone && a.create == Stored then 1 else 0)
  {
  }

  lemma MoveReports(objects: Objects, load: Load, w: Workload, a: FixAnswers, move: FixMove)
    ensures Effect(objects, load, w, a, move).tag.None? <==> move == Ignore
    ensures move == Ignore ==> Effect(objects, load, w, a, move) == FixEffect(objects, load, [], None)
  {
  }

  lemma IgnoresExactly(cfg: FixConfig, w: Workload, a: FixAnswers, load: Load)
    ensures DecideFix(cfg, w, a, load) == Ignore <==> w.phase !in {Succeeded, Completed, Failed}
  {
  }

  /** One result for every fix that is finished, none for one that runs. */
  lemma OneResult(cfg: FixConfig, w: Workload, a: FixAnswers, st: FixState)
    ensures var after := HandleFix(cfg, w, a, st);
      if w.phase in {Succeeded, Completed, Failed} then
        |after.results| == |st.results| + 1 && after.results[|st.results|].name == w.name
      else after == st
  {
    IgnoresExactly(cfg, w, a, st.load);
    MoveReports(st.objects, st.load, w, a, DecideFix(cfg, w, a, st.load));
  }

  // ----- A queued fix

  /** A queue entry becomes a fix exactly when it names a branch, has none in flight, and its coder has room. */
  lemma DrainExactly(cfg: FixConfig, render: Build.Render, q: Queued, existing: set<string>, objects: Objects, load: Load)
    ensures var e := DrainOne(cfg, render, q, existing, objects, load);
      && (e.tag == Unparseable <==> q.item.None?)
      && (q.item.Some? ==>
        var item, coder := q.item.value, FixCoderFor(q.item.value.lane, cfg.laneAgents);
        && (e.tag == NoBranch <==> item.branch == "")
        && (e.tag == InFlight <==> item.branch != "" && FixName(item.repo, item.pr) in existing)
        && (e.tag == CoderBusy(coder) <==>
          item.branch != "" && FixName(item.repo, item.pr) !in existing && !HasRoom(cfg, Some(coder), load))
        && (e.tag in {Created, DrainError} <==>
          item.branch != "" && FixName(item.repo, item.pr) !in existing && HasRoom(cfg, Some(coder), load))
        && (e.tag == Created ==>
          q.create == Stored && FixName(item.repo, item.pr) in e.objects && Held(e.load, coder) == Held(load, coder) + 1)
        && (e.tag == DrainError ==> q.create != Stored && e.load == load)
        && (e.tag !in {Created, DrainError} ==> e.objects == objects && e.load == load))
  {
  }
}
