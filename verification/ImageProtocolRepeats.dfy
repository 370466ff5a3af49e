/** An upload that repeats an earlier request: it is sent on to the row that the request already has. */
module ImageProtocolRepeats {
  import opened Outcomes
  import opened ImageJobPolicy
  import opened ImageJobEffects
  import opened ImageStores
  import opened ImageStoreAgreement
  import opened ImageStoreLaws
  import opened ImageProtocol
  import opened ImageProtocolSafety
  import opened ImageProtocolRuns
  import opened ImageProtocolDrives
  import opened ImageProtocolFailures

  /** The proposal is well-formed, under new names, and asks again for what `row` was made for. */
  predicate IsRepeatOf(s: Store, proposal: NewImageJob, atMs: int, row: ImageJob) {
    && CreateImageJob(proposal, atMs).Ok? && proposal.jobId !in s.jobs
    && proposal.outputStorageKey !in s.jobIdByOutput && IsManagedImagePath(proposal.outputStorageKey)
    && Lookup(s.jobs, row.request.jobId) == Some(row) && IsRepeat(row.request, proposal)
  }

  /** The world with one more call, at `a`. */
  function WithCall(w: World, files: set<File>, a: Actor): World {
    World(w.store, files, w.strays, w.actors + [a])
  }

  lemma CallMoves(w: World, files: set<File>, a: Actor, left: set<File>, b: Actor)
    ensures Moved(WithCall(w, files, a), |w.actors|, w.store, left, b) == WithCall(w, left, b)
  {
  }

  lemma RepeatIsFound(w: World, proposal: NewImageJob, atMs: int, row: ImageJob, env: Env)
    requires Agrees(w.store) && IsRepeatOf(w.store, proposal, atMs, row) && env.works && !env.replyLost
    ensures var files := w.files + {InputFile(proposal.inputStorageKey)};
            var from := WithCall(w, files, Reserving(proposal, atMs));
            && IsLegal(from, Proceed(|w.actors|, env))
            && Next(from, Proceed(|w.actors|, env))
               == WithCall(w, files, DiscardingInput(proposal.inputStorageKey, Some(row)))
  {
    hide Agrees, CreateImageJob, IsManagedImagePath, DecideReservation, Reserve;
    RepeatedRequestIsReused(w.store, proposal, atMs, row.request.jobId);
    var files := w.files + {InputFile(proposal.inputStorageKey)};
    var from := WithCall(w, files, Reserving(proposal, atMs));
    var b := DiscardingInput(proposal.inputStorageKey, Some(row));
    assert from.actors[|w.actors| := b] == w.actors + [b];
  }

  /** The repeat is sent on to the row; the store stays as it was and the new input file goes. */
  lemma RepeatIsSentOn(w: World, proposal: NewImageJob, atMs: int, row: ImageJob, env: Env)
    requires Agrees(w.store) && IsRepeatOf(w.store, proposal, atMs, row) && env.works && !env.replyLost
    ensures Drives(
              Next(w, StartUpload(proposal, atMs)), |w.actors|, env, 2,
              WithCall(w, w.files - {InputFile(proposal.inputStorageKey)}, Driving(row)))
  {
    hide Agrees, Next, Drives, IsRepeatOf, IsLegal;
    var i, key := |w.actors|, proposal.inputStorageKey;
    var files := w.files + {InputFile(key)};
    UploadStarts(w, proposal, atMs);
    var started := WithCall(w, files, Reserving(proposal, atMs));
    RepeatIsFound(w, proposal, atMs, row, env);
    DrivesOnce(started, i, env, env.file);
    assert env.(file := env.file) == env;
    var found := WithCall(w, files, DiscardingInput(key, Some(row)));
    DiscardedInputGoes(found, i, key, Some(row), env);
    DrivesOn(started, i, env, 1, found, env.file);
    CallMoves(w, files, DiscardingInput(key, Some(row)), files - {InputFile(key)}, Driving(row));
    assert files - {InputFile(key)} == w.files - {InputFile(key)};
  }

  lemma UploadStarts(w: World, proposal: NewImageJob, atMs: int)
    ensures Next(w, StartUpload(proposal, atMs))
            == WithCall(w, w.files + {InputFile(proposal.inputStorageKey)}, Reserving(proposal, atMs))
  {
  }

  lemma AnswerSeen(w: World, i: nat, env: Env)
    requires i < |w.actors| && (w.actors[i].Driving? || w.actors[i].AnsweringReady? || w.actors[i].AnsweringFinal?)
    ensures var o := DriveStep(w, w.actors[i], env);
            Next(w, Proceed(i, env)) == World(o.store, o.files, o.strays, w.actors[i := o.actor])
  {
    hide DriveStep;
  }

  /** A ready row is answered with its own path once its registration and its file have been seen. */
  lemma ReadyRowIsAnswered(w: World, i: nat, row: ImageJob, env: Env)
    requires IsGood(w) && IsCurrent(w, i, Driving(row), row) && row.state == Ready && env.works
    ensures Drives(w, i, env, 3, Moved(w, i, w.store, w.files, Done(Some(row.request.outputStorageKey))))
  {
    hide Next, Drives, IsGood, Agrees, IsSound, IsAttachableJob, HasReadyRegistration;
    GoodAgrees(w);
    CurrentIsSound(w.store, row);
    SoundAttachable(row);
    ReadyRowsAreRegistered(w.store, row.request.jobId);
    FinalIsThere(w, row);
    DriveStarts(w, i, env);
    AnswerSeen(w, i, env);
    DrivesOn(w, i, env, 0, w, env.file);
    var checking := Moved(w, i, w.store, w.files, AnsweringReady(row));
    AnswerSeen(checking, i, env);
    DrivesOn(w, i, env, 1, checking, env.file);
    var looking := Moved(w, i, w.store, w.files, AnsweringFinal(row));
    LastMoveCounts(w, i, w.store, w.files, AnsweringReady(row), w.store, w.files, AnsweringFinal(row));
    AnswerSeen(looking, i, env);
    DrivesOn(w, i, env, 2, looking, env.file);
    LastMoveCounts(
      w, i, w.store, w.files, AnsweringFinal(row), w.store, w.files, Done(Some(row.request.outputStorageKey)));
  }

  /** Rows at work, failed or in compensation are nobody's to drive: the repeat is not answered. */
  lemma OtherRowIsNotAnswered(w: World, i: nat, row: ImageJob, env: Env)
    requires i < |w.actors| && w.actors[i] == Driving(row)
    requires row.state != Ready && row.state != Requested && row.state != Queued
    ensures Drives(w, i, env, 1, Moved(w, i, w.store, w.files, Done(None)))
  {
    hide Next, Drives;
    DriveStarts(w, i, env);
    AnswerSeen(w, i, env);
    DrivesOn(w, i, env, 0, w, env.file);
  }

  /**
   The repeat of a request whose job is ready is answered with the first job's path, and no second job, row
   or file comes of it.
   */
  lemma RepeatOutcome(w: World, proposal: NewImageJob, atMs: int, row: ImageJob, env: Env) returns (n: nat)
    requires IsGood(w) && IsRepeatOf(w.store, proposal, atMs, row) && env.works && !env.replyLost
    requires row.state != Requested && row.state != Queued
    ensures Drives(
              Next(w, StartUpload(proposal, atMs)), |w.actors|, env, n,
              WithCall(
                w, w.files - {InputFile(proposal.inputStorageKey)},
                Done(if row.state == Ready then Some(row.request.outputStorageKey) else None)))
  {
    hide Next, Drives, IsGood, Agrees, IsRepeat, CreateImageJob, IsManagedImagePath;
    GoodAgrees(w);
    var i, started := |w.actors|, Next(w, StartUpload(proposal, atMs));
    EventIsGood(w, StartUpload(proposal, atMs));
    RepeatIsSentOn(w, proposal, atMs, row, env);
    var left := w.files - {InputFile(proposal.inputStorageKey)};
    var mid := WithCall(w, left, Driving(row));
    DrivesStayGood(started, i, env, 2, mid);
    if row.state == Ready {
      ReadyRowIsAnswered(mid, i, row, env);
      CallMoves(w, left, Driving(row), left, Done(Some(row.request.outputStorageKey)));
      n := 5;
      DrivesCompose(
        started, i, env, 2, mid, 3, WithCall(w, left, Done(Some(row.request.outputStorageKey))));
    } else {
      OtherRowIsNotAnswered(mid, i, row, env);
      CallMoves(w, left, Driving(row), left, Done(None));
      n := 3;
      DrivesCompose(started, i, env, 2, mid, 1, WithCall(w, left, Done(None)));
    }
  }
}
