// confirm_delete and delete_repo of s3yum/s3yum_cli.py, and the deletion of a
// list of remote items that delete_repo and upload_repodata share.

module Deletion {
  import opened Wrappers
  import opened Md5
  import opened Remote
  import opened Session

  // ---------------------------------------------------------------------
  // Deleting items
  // ---------------------------------------------------------------------

  /** One delete per item, in order. */
  function Deletes(items: seq<RemoteObj>): (ops: seq<Op>)
    ensures |ops| == |items|
    ensures forall i :: 0 <= i < |items| ==> ops[i] == Op.Delete(items[i].key)
    decreases |items|
  {
    if items == [] then []
    else
      var front := items[..|items| - 1];
      assert forall i :: 0 <= i < |front| ==> front[i] == items[i];
      Deletes(front) + [Op.Delete(items[|items| - 1].key)]
  }

  /** The keys of the items. */
  function KeysOf(items: seq<RemoteObj>): set<string> {
    set i | 0 <= i < |items| :: items[i].key
  }

  lemma KeysOfSnoc(items: seq<RemoteObj>)
    requires items != []
    ensures KeysOf(items) == KeysOf(items[..|items| - 1]) + {items[|items| - 1].key}
  {
    var front := items[..|items| - 1];
    forall k | k in KeysOf(items) ensures k in KeysOf(front) + {items[|items| - 1].key} {
      var i :| 0 <= i < |items| && items[i].key == k;
      if i < |front| {
        assert front[i] == items[i];
      }
    }
    forall k | k in KeysOf(front) ensures k in KeysOf(items) {
      var i :| 0 <= i < |front| && front[i].key == k;
      assert items[i] == front[i];
    }
  }

  /** Deleting the items removes exactly their keys. */
  lemma {:induction false} DeletesRemoveKeys(objects: map<string, RemoteObj>, items: seq<RemoteObj>,
                                             etag: Digest, now: string)
    ensures ApplyAll(objects, Deletes(items), etag, now) == objects - KeysOf(items)
    decreases |items|
  {
    if items != [] {
      var front := items[..|items| - 1];
      var last := items[|items| - 1];
      DeletesRemoveKeys(objects, front, etag, now);
      assert Deletes(items)[..|items| - 1] == Deletes(front);
      KeysOfSnoc(items);
      assert ApplyAll(objects, Deletes(items), etag, now)
          == (objects - KeysOf(front)) - {last.key};
    }
  }

  /** Deletes every item, unless --dry-run is set. */
  method DeleteItems(ctx: Context, items: seq<RemoteObj>)
    requires ctx.store.Valid()
    modifies ctx.store
    ensures ctx.store.Valid()
    ensures ctx.opts.dryRun ==> ctx.store.log == old(ctx.store.log)
    ensures !ctx.opts.dryRun ==> ctx.store.log == old(ctx.store.log) + Deletes(items)
  {
    ghost var log0 := ctx.store.log;
    var i := 0;
    while i < |items|
      invariant 0 <= i <= |items|
      invariant ctx.store.Valid()
      invariant ctx.store.log == log0 + (if ctx.opts.dryRun then [] else Deletes(items[..i]))
    {
      assert items[..i + 1][..i] == items[..i];
      if !ctx.opts.dryRun {
        ctx.store.Delete(items[i].key);
      }
      i := i + 1;
    }
    assert items[..i] == items;
  }

  // ---------------------------------------------------------------------
  // confirm_delete
  // ---------------------------------------------------------------------

  /** The prompt loop after `count` prompts have had no valid answer:
      the answer it settles on (false after five prompts, or an EOFError when
      the input runs out) and the number of prompts it shows in all. */
  function Confirm(answers: seq<string>, count: nat): (r: (Result<bool, Error>, nat))
    requires count <= 5
    ensures count <= r.1 <= 5
    ensures r.0 == Success(true) ==> count < r.1 <= |answers| && answers[r.1 - 1] == "yes"
    ensures r.0 == Success(false) ==> r.1 == 5 || (count < r.1 <= |answers| && answers[r.1 - 1] == "no")
    ensures r.0.Failure? ==> r.0.error == Other(EndOfInput) && |answers| < r.1
                             && (count <= |answers| ==> r.1 == |answers| + 1)
    ensures forall i :: count <= i < r.1 - 1 && i < |answers| ==> answers[i] != "yes" && answers[i] != "no"
    decreases 5 - count
  {
    if count == 5 then (Success(false), 5)
    else if count >= |answers| then (Failure(Other(EndOfInput)), count + 1)
    else if answers[count] == "yes" || answers[count] == "no" then (Success(answers[count] == "yes"), count + 1)
    else Confirm(answers, count + 1)
  }

  /** An answer the prompt does not accept. */
  predicate Invalid(a: string) {
    a != "yes" && a != "no"
  }

  /** confirm_delete, reading the lines `answers`: asks up to five times for
      "yes" or "no" and returns whether the answer was "yes". */
  method ConfirmDelete(answers: seq<string>) returns (r: Result<bool, Error>, prompts: nat)
    ensures (r, prompts) == Confirm(answers, 0)
  {
    var answer: Option<string> := None;
    var count := 0;
    while answer.None? && count < 5
      invariant 0 <= count <= 5
      invariant answer.None? ==> Confirm(answers, 0) == Confirm(answers, count)
      invariant answer.Some? ==> Confirm(answers, 0) == (Success(answer.value == "yes"), count)
    {
      if count >= |answers| {
        return Failure(Other(EndOfInput)), count + 1;
      }
      var line := answers[count];
      if line == "yes" || line == "no" {
        answer := Some(line);
      }
      count := count + 1;
    }
    r := Success(answer == Some("yes"));
    prompts := count;
  }

  /** The prompt is shown at least once and at most five times. */
  lemma {:induction false} PromptsBounded(answers: seq<string>, count: nat)
    requires count <= 5
    ensures count < Confirm(answers, count).1 <= 5 || (count == 5 && Confirm(answers, count).1 == 5)
    decreases 5 - count
  {
    if count < 5 && count < |answers| && Invalid(answers[count]) {
      PromptsBounded(answers, count + 1);
    }
  }

  /** The answer is true exactly when the first accepted line among the first
      five is "yes". */
  lemma {:induction false} ConfirmedIff(answers: seq<string>, count: nat)
    requires count <= 5
    ensures Confirm(answers, count).0 == Success(true) <==>
              exists k :: count <= k < 5 && k < |answers| && answers[k] == "yes" &&
                          forall j :: count <= j < k ==> Invalid(answers[j])
    decreases 5 - count
  {
    if count < 5 && count < |answers| && Invalid(answers[count]) {
      ConfirmedIff(answers, count + 1);
      if Confirm(answers, count).0 == Success(true) {
        var k :| count + 1 <= k < 5 && k < |answers| && answers[k] == "yes" &&
                 forall j :: count + 1 <= j < k ==> Invalid(answers[j]);
        assert forall j :: count <= j < k ==> Invalid(answers[j]);
      }
    }
  }

  /** "no" ends the loop at the first prompt. */
  lemma NoEndsAtOnce(answers: seq<string>)
    requires |answers| > 0 && answers[0] == "no"
    ensures Confirm(answers, 0) == (Success(false), 1)
  {
  }

  /** Five lines that are neither "yes" nor "no" give false, and nothing
      after them is read. */
  lemma FiveInvalidAnswers(answers: seq<string>)
    requires |answers| >= 5 && forall j :: 0 <= j < 5 ==> Invalid(answers[j])
    ensures Confirm(answers, 0) == (Success(false), 5)
  {
    assert Invalid(answers[0]) && Invalid(answers[1]) && Invalid(answers[2]);
    assert Invalid(answers[3]) && Invalid(answers[4]);
  }

  // ---------------------------------------------------------------------
  // delete_repo
  // ---------------------------------------------------------------------

  /** delete_repo: after a confirmation, every metadata item and then every
      package item is deleted (none under --dry-run); the result says whether
      the deletion went ahead. */
  method DeleteRepo(ctx: Context, answers: seq<string>) returns (r: Result<bool, Error>)
    requires ctx.store.Valid()
    modifies ctx.store
    ensures ctx.store.Valid()
    ensures r == Confirm(answers, 0).0
    ensures r != Success(true) ==> ctx.store.log == old(ctx.store.log)
    ensures r == Success(true) ==>
              ctx.store.log == old(ctx.store.log) + (if ctx.opts.dryRun then []
                                                    else Deletes(ctx.repodataItems) + Deletes(ctx.rpmItems))
  {
    var ok, _ := ConfirmDelete(answers);
    if ok.Failure? || !ok.value {
      return ok;
    }
    DeleteItems(ctx, ctx.repodataItems);
    DeleteItems(ctx, ctx.rpmItems);
    r := Success(true);
  }

  /** A confirmed deletion that is not a dry run leaves no listed metadata or
      package key in the bucket, and every other object as it was. */
  lemma DeleteRepoEffect(objects: map<string, RemoteObj>, metadata: seq<RemoteObj>, rpms: seq<RemoteObj>,
                         etag: Digest, now: string)
    ensures ApplyAll(objects, Deletes(metadata) + Deletes(rpms), etag, now)
         == objects - KeysOf(metadata) - KeysOf(rpms)
  {
    ApplyAllConcat(objects, Deletes(metadata), Deletes(rpms), etag, now);
    DeletesRemoveKeys(objects, metadata, etag, now);
    DeletesRemoveKeys(objects - KeysOf(metadata), rpms, etag, now);
  }
}
