/** The dashboard's links page and link card: the local sort, the create/edit
    dialog, the delete confirmation and the drag-to-reorder request. The
    page's effects are the requests it sends; fetching and caching are not
    modelled. */
module LinksPage {
  import opened Wrappers
  import opened Schema
  import opened LinkOrder

  /** The icon choices offered by the dialog, in display order. */
  const IconOptions: seq<string> :=
    ["globe", "instagram", "linkedin", "github", "twitter", "youtube",
     "tiktok", "facebook", "twitch", "whatsapp", "email"]

  /** The dialog's form fields. */
  datatype Form = Form(title: string, url: string, icon: string)

  /** The form of a fresh dialog: empty text, the globe icon. */
  const BlankForm := Form("", "", "globe")

  /** The page's dialog state: open or closed, the link being edited (none
      when creating), and the form. */
  datatype Editor = Editor(dialogOpen: bool, editing: Option<Link>, form: Form)

  /** The state when the page mounts. */
  const InitialEditor := Editor(false, None, BlankForm)

  /** The choices are eleven distinct tags, and a fresh form's icon is one. */
  lemma IconOptionsWellFormed()
    ensures |IconOptions| == 11
    ensures forall i, j :: 0 <= i < j < |IconOptions| ==> IconOptions[i] != IconOptions[j]
    ensures BlankForm.icon == IconOptions[0]
  {
  }

  /** The links as the page shows them: the fetched rows, sorted by `order`. */
  function DisplayLinks(data: seq<Link>): (r: seq<Link>)
    ensures SortedByOrder(r)
    ensures multiset(r) == multiset(data) && |r| == |data|
  {
    SortByOrder(data)
  }

  /** "Add Link": a fresh form, nothing being edited. */
  function OpenCreate(e: Editor): (r: Editor)
    ensures r.dialogOpen && r.editing.None? && r.form == BlankForm
  {
    Editor(true, None, BlankForm)
  }

  /** The card's edit button: the dialog opens on the link's own fields. */
  function OpenEdit(e: Editor, l: Link): (r: Editor)
    ensures r.dialogOpen && r.editing == Some(l)
    ensures r.form.title == l.title && r.form.url == l.url && r.form.icon == l.icon
  {
    Editor(true, Some(l), Form(l.title, l.url, l.icon))
  }

  /** What submitting the dialog asks of the server. */
  datatype Mutation =
    | UpdateMutation(id: LinkId, patch: LinkPatch)
    | CreateMutation(input: InsertLink)

  /** Submitting updates the edited link with the three form fields, or
      creates a link whose `order` is the number of links shown. */
  function SubmitMutation(e: Editor, shown: seq<Link>): (m: Mutation)
    ensures m.UpdateMutation? <==> e.editing.Some?
    ensures m.UpdateMutation? ==>
      && m.id == e.editing.value.id
      && m.patch == LinkPatch(Some(e.form.title), Some(e.form.url), Some(e.form.icon), None)
    ensures m.CreateMutation? ==>
      m.input == InsertLink(e.form.title, e.form.url, e.form.icon, Some(|shown|))
  {
    match e.editing
    case Some(l) => UpdateMutation(l.id, LinkPatch(Some(e.form.title), Some(e.form.url), Some(e.form.icon), None))
    case None => CreateMutation(InsertLink(e.form.title, e.form.url, e.form.icon, Some(|shown|)))
  }

  /** After the request: a success closes the dialog and resets the form; a
      failure only shows an error and leaves the dialog as it was. */
  function AfterSubmit(e: Editor, succeeded: bool): (r: Editor)
    ensures succeeded ==> r == InitialEditor
    ensures !succeeded ==> r == e
  {
    if succeeded then Editor(false, None, BlankForm) else e
  }

  /** A dialog opened on a link and submitted unchanged writes the link back
      as it was; an edit never moves a link. */
  lemma UnchangedEditIsIdentity(e: Editor, l: Link, shown: seq<Link>)
    ensures SubmitMutation(OpenEdit(e, l), shown).UpdateMutation?
    ensures ApplyLinkPatch(l, SubmitMutation(OpenEdit(e, l), shown).patch) == l
  {
  }

  /** An edit rewrites exactly the three form fields of whatever row it
      reaches and keeps that row's `order`. */
  lemma EditKeepsOrder(e: Editor, shown: seq<Link>, row: Link)
    requires e.editing.Some?
    ensures ApplyLinkPatch(row, SubmitMutation(e, shown).patch).order == row.order
    ensures ApplyLinkPatch(row, SubmitMutation(e, shown).patch).title == e.form.title
    ensures ApplyLinkPatch(row, SubmitMutation(e, shown).patch).url == e.form.url
    ensures ApplyLinkPatch(row, SubmitMutation(e, shown).patch).icon == e.form.icon
  {
  }

  /** A saved dialog leaves the page as it mounted, so reopening "Add Link"
      starts from a blank form whatever was edited before. */
  lemma SaveResetsDialog(e: Editor)
    ensures AfterSubmit(e, true).form == OpenCreate(AfterSubmit(e, true)).form
    ensures AfterSubmit(e, true).editing.None?
  {
  }

  /** The card's buttons: edit hands the page the link, delete only its id. */
  datatype CardButton = EditButton | DeleteButton

  /** Pressing a card button: edit opens the dialog on the link; delete asks
      for confirmation and, when given, requests the deletion of the link's
      id, leaving the dialog alone. */
  function PressCardButton(e: Editor, l: Link, b: CardButton, confirmed: bool): (r: (Editor, Option<LinkId>))
    ensures b == EditButton ==> r.0 == OpenEdit(e, l) && r.1.None?
    ensures b == DeleteButton ==> r.0 == e
    ensures r.1.Some? <==> b == DeleteButton && confirmed
    ensures r.1.Some? ==> r.1.value == l.id
  {
    match b
    case EditButton => (OpenEdit(e, l), None)
    case DeleteButton => (e, if confirmed then Some(l.id) else None)
  }

  /** The reorder request for a dragged arrangement: the links' ids, in the
      new order. */
  function ReorderRequest(newOrder: seq<Link>): (ids: seq<LinkId>)
    ensures |ids| == |newOrder|
    ensures forall i :: 0 <= i < |newOrder| ==> ids[i] == newOrder[i].id
  {
    seq(|newOrder|, i requires 0 <= i < |newOrder| => newOrder[i].id)
  }
}
