/**
 * The links editor (`LinksForm`): a list of entries edited in place —
 * "Add Link" appends an unsaved `new-…` entry, the trash button removes
 * one — validated by `linksSchema` on submit and handed, with the list the
 * page was loaded with, to `updateLinks`.
 */
module LinksForm {
  import opened Wrappers
  import opened Text
  import opened Types
  import opened Backend
  import opened AccountActions
  import opened Ui

  const TitleRequired := "Title is required."
  const InvalidUrl := "Please enter a valid URL."
  const LinksUpdated := "Your links have been updated."

  /** One entry of the form: the fields `linksSchema` keeps. */
  datatype Entry = Entry(id: string, title: string, url: string)

  /** The entry a stored link starts as. */
  function EntryOf(l: Link): (e: Entry)
    ensures e.id == l.id && e.title == l.title && e.url == l.url
  {
    Entry(l.id, l.title, l.url)
  }

  /** The entries a list of stored links starts as, in the same order. */
  function EntriesOf(links: seq<Link>): (es: seq<Entry>)
    ensures |es| == |links|
    ensures forall i :: 0 <= i < |links| ==> es[i] == EntryOf(links[i])
  {
    seq(|links|, i requires 0 <= i < |links| => EntryOf(links[i]))
  }

  /** The entry "Add Link" appends: `{ id: `new-${Date.now()}`, title: "", url: "" }`. */
  function FreshEntry(now: nat): (e: Entry)
    ensures IsNewId(Some(e.id)) && e.title == "" && e.url == ""
  {
    var e := Entry("new-" + Decimal(now), "", "");
    assert e.id[..4] == "new-";
    e
  }

  /** The messages `linksSchema` reports for one entry; `isUrl` is zod's URL check. */
  function EntryMessages(e: Entry, isUrl: string -> bool): (ms: seq<string>)
    ensures TitleRequired in ms <==> e.title == ""
    ensures InvalidUrl in ms <==> !isUrl(e.url)
    ensures ms == [] <==> EntryValid(e, isUrl)
  {
    (if |e.title| < 1 then [TitleRequired] else []) + (if isUrl(e.url) then [] else [InvalidUrl])
  }

  predicate EntryValid(e: Entry, isUrl: string -> bool) {
    |e.title| >= 1 && isUrl(e.url)
  }

  /** `z.array(...)`: the form submits only when every entry is valid. */
  predicate FormValid(entries: seq<Entry>, isUrl: string -> bool) {
    forall i :: 0 <= i < |entries| ==> EntryValid(entries[i], isUrl)
  }

  /** The links as submitted: every field present. */
  function Drafts(entries: seq<Entry>): (ds: seq<LinkDraft>)
    ensures |ds| == |entries|
    ensures forall i :: 0 <= i < |entries| ==>
      ds[i] == LinkDraft(Some(entries[i].id), Some(entries[i].title), Some(entries[i].url))
  {
    seq(|entries|, i requires 0 <= i < |entries| => LinkDraft(Some(entries[i].id), Some(entries[i].title), Some(entries[i].url)))
  }

  /** What `onLinksSubmit` passes to `updateLinks`: the parsed list and the original `initialLinks`. */
  datatype Submission = Submission(links: seq<LinkDraft>, initial: Option<seq<Link>>)

  class LinksForm {
    /** The `links` prop as the page passed it (possibly null). */
    const initialLinks: Option<seq<Link>>
    /** The field array's current entries. */
    var entries: seq<Entry>
    var toasts: seq<Toast>
    /** How many times the page was refreshed (`router.refresh()`). */
    var refreshes: nat

    /** `defaultValues: { links: initialLinks || [] }`. */
    constructor (initialLinks: Option<seq<Link>>)
      ensures this.initialLinks == initialLinks
      ensures entries == EntriesOf(initialLinks.GetOr([]))
      ensures toasts == [] && refreshes == 0
    {
      this.initialLinks := initialLinks;
      entries := EntriesOf(initialLinks.GetOr([]));
      toasts := [];
      refreshes := 0;
    }

    /** "Add Link": one fresh entry at the end. */
    method Append(now: nat)
      modifies this
      ensures entries == old(entries) + [FreshEntry(now)]
      ensures toasts == old(toasts) && refreshes == old(refreshes)
    {
      entries := entries + [FreshEntry(now)];
    }

    /** The trash button of entry `index`: the others keep their order. */
    method Remove(index: nat)
      requires index < |entries|
      modifies this
      ensures entries == old(entries)[..index] + old(entries)[index + 1..]
      ensures toasts == old(toasts) && refreshes == old(refreshes)
      ensures |entries| == |old(entries)| - 1
      ensures forall i :: 0 <= i < index ==> entries[i] == old(entries)[i]
      ensures forall i :: index <= i < |entries| ==> entries[i] == old(entries)[i + 1]
    {
      entries := entries[..index] + entries[index + 1..];
    }

    /**
     * `handleSubmit(onLinksSubmit)`: nothing is sent unless every entry is
     * valid; otherwise the entries go out with the original list.
     */
    method Submit(isUrl: string -> bool) returns (r: Option<Submission>)
      ensures r.Some? <==> forall i :: 0 <= i < |entries| ==> EntryMessages(entries[i], isUrl) == []
      ensures r.Some? ==> r.value.initial == initialLinks
      ensures r.Some? ==> |r.value.links| == |entries|
      ensures r.Some? ==> forall i :: 0 <= i < |entries| ==>
        && r.value.links[i].id == Some(entries[i].id)
        && r.value.links[i].title == Some(entries[i].title)
        && r.value.links[i].url == Some(entries[i].url)
    {
      if FormValid(entries, isUrl) {
        r := Some(Submission(Drafts(entries), initialLinks));
      } else {
        r := None;
      }
    }

    /**
     * How the call to `updateLinks` ends: an error reply toasts; success
     * toasts and refreshes; a throw skips both. The entries stay as they are.
     */
    method HandleResult(result: Completion)
      modifies this
      ensures entries == old(entries)
      ensures result.Threw? ==> toasts == old(toasts) && refreshes == old(refreshes)
      ensures result.Returned? && result.reply.Failed? ==>
        toasts == old(toasts) + [ErrorToast(result.reply.message)] && refreshes == old(refreshes)
      ensures result.Returned? && !result.reply.Failed? ==>
        toasts == old(toasts) + [SuccessToast(LinksUpdated)] && refreshes == old(refreshes) + 1
    {
      match result {
        case Threw =>
        case Returned(reply) =>
          if reply.Failed? {
            toasts := toasts + [ErrorToast(reply.message)];
          } else {
            toasts := toasts + [SuccessToast(LinksUpdated)];
            refreshes := refreshes + 1;
          }
      }
    }
  }

  /** A freshly added entry blocks submission until its title is filled in. */
  lemma FreshEntryBlocksSubmit(entries: seq<Entry>, now: nat, isUrl: string -> bool)
    ensures !FormValid(entries + [FreshEntry(now)], isUrl)
  {
    var all := entries + [FreshEntry(now)];
    assert all[|entries|] == FreshEntry(now);
  }

  /**
   * A list that passes the form's schema survives the batch `updateLinks`
   * filter whole (zod rejects the empty URL): entry `i` becomes the row
   * with `order` `i`, carrying its title and url.
   */
  lemma ValidFormPlansEveryEntry(entries: seq<Entry>, isUrl: string -> bool, uid: UserId)
    requires FormValid(entries, isUrl) && !isUrl("")
    ensures |Plan(Drafts(entries), uid)| == |entries|
    ensures forall i :: 0 <= i < |entries| ==>
      && Plan(Drafts(entries), uid)[i].order == i
      && Plan(Drafts(entries), uid)[i].title == entries[i].title
      && Plan(Drafts(entries), uid)[i].url == entries[i].url
  {
    var ds := Drafts(entries);
    forall k | 0 <= k < |ds| ensures Kept(ds[k]) {
      assert EntryValid(entries[k], isUrl);
    }
    PlanDense(ds, uid);
    forall i | 0 <= i < |entries|
      ensures Plan(ds, uid)[i].title == entries[i].title && Plan(ds, uid)[i].url == entries[i].url
    {
      PlanRows(ds, uid, i);
    }
  }

  /** Submitting the list as loaded deletes no link. */
  lemma UnchangedListDeletesNothing(initial: seq<Link>)
    ensures DeletedIds(Drafts(EntriesOf(initial)), initial) == {}
  {
    var ds := Drafts(EntriesOf(initial));
    forall i | 0 <= i < |initial| ensures initial[i].id in SubmittedIds(ds) {
      assert ds[i].id == Some(initial[i].id);
    }
  }
}
