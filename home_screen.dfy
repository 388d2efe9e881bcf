/** The draft list screen (src/components/HomeScreen.tsx): the vibe description and colour
    of each listed draft, loading the list, deleting a draft after confirmation, and
    starting a new draft. The list and delete calls' replies are parameters. */
module HomeScreen {
  import opened Types
  import opened Buckets
  import Store

  function DescriptionFor(b: Bucket): string {
    match b
    case Inspiring => "INSPIRING"
    case Engaging => "ENGAGING"
    case Neutral => "NEUTRAL"
    case Flat => "FLAT"
    case NeedsWork => "NEEDS WORK"
  }

  const Green := "#10B981"
  const Blue := "#3B82F6"
  const Gray := "#6B7280"
  const Orange := "#F59E0B"
  const Red := "#EF4444"

  function ColorFor(b: Bucket): string {
    match b
    case Inspiring => Green
    case Engaging => Blue
    case Neutral => Gray
    case Flat => Orange
    case NeedsWork => Red
  }

  /** `getVibeDescription`: empty for a draft never analysed. */
  function VibeDescription(score: Option<real>): (d: string)
    ensures score.None? <==> d == ""
    ensures score.Some? ==> d == DescriptionFor(BucketOf(score.value))
  {
    if score.None? then "" else DescriptionFor(BucketOf(score.value))
  }

  /** `getVibeColor`: a draft never analysed is drawn like a neutral one. */
  function VibeColor(score: Option<real>): (c: string)
    ensures score.None? ==> c == ColorFor(Neutral)
    ensures score.Some? ==> c == ColorFor(BucketOf(score.value))
  {
    if score.None? then Gray else ColorFor(BucketOf(score.value))
  }

  /** The description and the colour name the same bucket: two drafts share a colour
      exactly when they share a description, unless one of them was never analysed. */
  lemma {:induction false} ColorFollowsDescription(s: Option<real>, t: Option<real>)
    requires s.Some? && t.Some?
    ensures VibeColor(s) == VibeColor(t) <==> VibeDescription(s) == VibeDescription(t)
  {
    var b, c := BucketOf(s.value), BucketOf(t.value);
    assert ColorFor(b) == ColorFor(c) ==> b == c;
    assert DescriptionFor(b) == DescriptionFor(c) ==> b == c by {
      assert |DescriptionFor(Inspiring)| == 9 && |DescriptionFor(Engaging)| == 8;
      assert |DescriptionFor(Neutral)| == 7 && |DescriptionFor(Flat)| == 4 && |DescriptionFor(NeedsWork)| == 10;
      assert DescriptionFor(Engaging) != DescriptionFor(Neutral) by {
        assert DescriptionFor(Engaging)[0] != DescriptionFor(Neutral)[0];
      }
    }
  }

  /** `drafts.filter(d => d.id !== draftId)`. */
  function Without(drafts: seq<DraftSummary>, id: string): (r: seq<DraftSummary>)
    ensures |r| <= |drafts|
    ensures forall i :: 0 <= i < |r| ==> r[i].id != id && r[i] in drafts
    ensures forall d :: d in drafts && d.id != id ==> d in r
    decreases |drafts|
  {
    if drafts == [] then []
    else if drafts[0].id == id then Without(drafts[1..], id)
    else [drafts[0]] + Without(drafts[1..], id)
  }

  /** The filter keeps the surviving entries in their order: it works piecewise on a
      concatenation, and leaves a list without the id as it is. */
  lemma {:induction false} WithoutKeepsOrder(a: seq<DraftSummary>, b: seq<DraftSummary>, id: string)
    ensures Without(a + b, id) == Without(a, id) + Without(b, id)
    decreases |a|
  {
    if a == [] {
      assert a + b == b;
    } else {
      assert (a + b)[1..] == a[1..] + b;
      WithoutKeepsOrder(a[1..], b, id);
    }
  }

  lemma {:induction false} WithoutAbsentId(drafts: seq<DraftSummary>, id: string)
    requires forall i :: 0 <= i < |drafts| ==> drafts[i].id != id
    ensures Without(drafts, id) == drafts
    decreases |drafts|
  {
    if drafts != [] {
      WithoutAbsentId(drafts[1..], id);
    }
  }

  const LoadFailed := "Failed to load drafts"
  const LoadThrew := "An error occurred while loading drafts"
  const DeleteFailed := "Failed to delete draft"
  const DeleteThrew := "An error occurred while deleting the draft"

  /** The screen's state. */
  class Home {
    const store: Store.EditorStore
    var drafts: seq<DraftSummary>
    var loading: bool
    var error: Option<string>
    var deletingDraftId: Option<string>

    constructor (store: Store.EditorStore)
      ensures this.store == store && drafts == [] && loading && error.None? && deletingDraftId.None?
    {
      this.store := store;
      drafts := [];
      loading := true;
      error := None;
      deletingDraftId := None;
    }

    /** `loadDrafts`: a successful reply replaces the list; a failed one or an exception
        only sets the error. */
    method LoadDrafts(reply: Reply<ListDraftsResult>)
      modifies this`drafts, this`loading, this`error
      ensures !loading
      ensures reply.Returned? && reply.value.success && reply.value.drafts.Some? ==>
        drafts == reply.value.drafts.value && error.None?
      ensures reply.Returned? && !(reply.value.success && reply.value.drafts.Some?) ==>
        drafts == old(drafts) && error == Some(OrElse(reply.value.error, LoadFailed))
      ensures reply.Threw? ==> drafts == old(drafts) && error == Some(LoadThrew)
    {
      loading := true;
      error := None;
      if reply.Threw? {
        error := Some(LoadThrew);
      } else if reply.value.success && reply.value.drafts.Some? {
        drafts := reply.value.drafts.value;
      } else {
        error := Some(OrElse(reply.value.error, LoadFailed));
      }
      loading := false;
    }

    /** `handleDeleteDraft`: nothing without confirmation; otherwise the call is made, a
        success removes the draft from the list, and a failure only sets the error.
        Returns whether the call was made. */
    method DeleteDraft(id: string, confirmed: bool, reply: Reply<DeleteResult>) returns (called: bool)
      modifies this`drafts, this`error, this`deletingDraftId
      ensures called == confirmed
      ensures !confirmed ==> drafts == old(drafts) && error == old(error) && deletingDraftId == old(deletingDraftId)
      ensures confirmed ==> deletingDraftId.None?
      ensures confirmed && reply.Returned? && reply.value.success ==>
        drafts == Without(old(drafts), id) && error == old(error)
      ensures confirmed && reply.Returned? && !reply.value.success ==>
        drafts == old(drafts) && error == Some(OrElse(reply.value.error, DeleteFailed))
      ensures confirmed && reply.Threw? ==> drafts == old(drafts) && error == Some(DeleteThrew)
    {
      if !confirmed {
        return false;
      }
      called := true;
      deletingDraftId := Some(id);
      if reply.Threw? {
        error := Some(DeleteThrew);
      } else if reply.value.success {
        drafts := Without(drafts, id);
      } else {
        error := Some(OrElse(reply.value.error, DeleteFailed));
      }
      deletingDraftId := None;
    }

    /** `handleNewDraft`: the editor store is reset, then no draft is selected. */
    method NewDraft(now: Stamp) returns (selected: Option<string>)
      modifies store`content, store`currentDraftId, store`metadata, store`vibe, store`vibeHistory,
               store`writingMode, store`lastSavedContent, store`lastSavedAt
      ensures selected.None?
      ensures store.IsReset(now) && !store.HasUnsavedChanges()
      ensures store.Valid()
    {
      store.ResetState(now);
      selected := None;
    }
  }
}
