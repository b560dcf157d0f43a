/** One comment with its edit controls (components/CommentItem.tsx). The
    component holds two state cells, `isEditing` and `editedContent` (the
    draft); `content` is the prop it was rendered with. While editing it
    shows a text area with Save and Cancel; otherwise Edit and Delete. The
    callbacks `onUpdate` and `onDelete` are modelled by what the methods
    return: the arguments the callback is called with. */
module CommentItem {

  datatype Action = Edit | Type(text: string) | Save | Cancel | Delete

  /** The two state cells as a value: the state machine the methods of
      `CommentItem` implement. */
  datatype EditState = EditState(isEditing: bool, draft: string)

  /** Edit and Delete are shown only when not editing; the text area, Save
      and Cancel only when editing. */
  predicate Allowed(s: EditState, a: Action)
  {
    match a
    case Edit => !s.isEditing
    case Delete => !s.isEditing
    case Type(_) => s.isEditing
    case Save => s.isEditing
    case Cancel => s.isEditing
  }

  /** The state after an available action; `content` is the current prop. */
  function Next(content: string, s: EditState, a: Action): EditState
  {
    match a
    case Edit => s.(isEditing := true)
    case Type(text) => s.(draft := text)
    case Save => s.(isEditing := false)
    case Cancel => EditState(false, content)
    case Delete => s
  }

  class CommentItem {
    const id: int
    var content: string
    var isEditing: bool
    var editedContent: string

    constructor (id: int, content: string)
      ensures this.id == id && this.content == content
      ensures !isEditing && editedContent == content
    {
      this.id := id;
      this.content := content;
      isEditing := false;
      editedContent := content;
    }

    function State(): EditState
      reads this
    {
      EditState(isEditing, editedContent)
    }

    /** Which controls are on screen. */
    predicate Available(a: Action)
      reads this
    {
      Allowed(State(), a)
    }

    /** The Edit button: enter editing mode with the current draft. */
    method ClickEdit()
      requires Available(Edit)
      modifies this`isEditing
      ensures State() == Next(content, old(State()), Edit)
      ensures isEditing && editedContent == old(editedContent)
    {
      isEditing := true;
    }

    /** Typing in the text area changes only the draft. */
    method TypeDraft(text: string)
      requires Available(Type(text))
      modifies this`editedContent
      ensures State() == Next(content, old(State()), Type(text))
      ensures editedContent == text && isEditing
    {
      editedContent := text;
    }

    /** `handleUpdate`: report `(id, draft)` to `onUpdate` and leave editing
        mode; the draft is kept. */
    method ClickSave() returns (updateId: int, updateContent: string)
      requires Available(Save)
      modifies this`isEditing
      ensures State() == Next(content, old(State()), Save)
      ensures updateId == id && updateContent == editedContent
      ensures !isEditing
    {
      updateId, updateContent := id, editedContent;
      isEditing := false;
    }

    /** Cancel: leave editing mode and reset the draft to the prop, without
        calling `onUpdate`. */
    method ClickCancel()
      requires Available(Cancel)
      modifies this`isEditing, this`editedContent
      ensures State() == Next(content, old(State()), Cancel)
      ensures !isEditing && editedContent == content
    {
      isEditing := false;
      editedContent := content;
    }

    /** The Delete button: report `id` to `onDelete`; the state is untouched. */
    method ClickDelete() returns (deleteId: int)
      requires Available(Delete)
      ensures deleteId == id
    {
      deleteId := id;
    }

    /** A re-render with a new `content` prop: `useState` keeps the draft it
        was initialised with, so only the prop changes. */
    method Rerender(newContent: string)
      modifies this`content
      ensures content == newContent && State() == old(State())
    {
      content := newContent;
    }
  }

  /** Run the available actions in order; unavailable ones are not on screen
      and cannot happen. */
  function Run(content: string, s: EditState, actions: seq<Action>): EditState
    decreases |actions|
  {
    if actions == [] then s
    else Run(content, if Allowed(s, actions[0]) then Next(content, s, actions[0]) else s, actions[1..])
  }

  /** The draft only ever holds the text it started with, the content, or
      a text that was typed. */
  lemma {:induction false} DraftIsContentOrTyped(content: string, s: EditState, actions: seq<Action>)
    ensures var d := Run(content, s, actions).draft;
      d == s.draft || d == content || Type(d) in actions
    decreases |actions|
  {
    if actions != [] {
      var s' := if Allowed(s, actions[0]) then Next(content, s, actions[0]) else s;
      DraftIsContentOrTyped(content, s', actions[1..]);
      var d := Run(content, s, actions).draft;
      if Type(d) in actions[1..] {
        assert Type(d) in actions;
      }
    }
  }

  /** From the initial state, the item is editing exactly when an Edit
      came after the last Save or Cancel. */
  lemma {:induction false} EditingIffEditedLast(content: string, actions: seq<Action>)
    ensures Run(content, EditState(false, content), actions).isEditing <==> EditedLast(actions, false)
  {
    RunTracksEditing(content, EditState(false, content), actions);
  }

  /** Whether editing mode is on after `actions`, starting from `editing`,
      read off the actions alone. */
  function EditedLast(actions: seq<Action>, editing: bool): bool
    decreases |actions|
  {
    if actions == [] then editing
    else EditedLast(actions[1..],
      match actions[0]
      case Edit => true
      case Save => false
      case Cancel => false
      case _ => editing)
  }

  lemma {:induction false} RunTracksEditing(content: string, s: EditState, actions: seq<Action>)
    ensures Run(content, s, actions).isEditing <==> EditedLast(actions, s.isEditing)
    decreases |actions|
  {
    if actions != [] {
      var s' := if Allowed(s, actions[0]) then Next(content, s, actions[0]) else s;
      RunTracksEditing(content, s', actions[1..]);
    }
  }
}
