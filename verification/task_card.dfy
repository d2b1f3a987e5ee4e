/** One task card: its priority styling, the priority selector's value, the
    completion flash shown when the task arrives in `done`, and the view
    state of editing and the two-step delete. */
module TaskCard {
  import opened Board
  import opened Constants

  // ---------------------------------------------------------------- priority

  /** The class strings of one priority style. */
  datatype PriorityStyle = PriorityStyle(line: string, badge: string, glow: string)

  const DarkStyles: map<string, PriorityStyle> := map[
    High := PriorityStyle("bg-neon-red shadow-[0_0_10px_#FF3366]",
                          "bg-neon-red/10 text-neon-red border-neon-red/20",
                          "hover:shadow-neon-red/50 hover:border-neon-red/50"),
    Medium := PriorityStyle("bg-neon-purple shadow-[0_0_10px_#B833FF]",
                            "bg-neon-purple/10 text-neon-purple border-neon-purple/20",
                            "hover:shadow-neon-purple/50 hover:border-neon-purple/50"),
    Low := PriorityStyle("bg-neon-blue shadow-[0_0_10px_#33E1FF]",
                         "bg-neon-blue/10 text-neon-blue border-neon-blue/20",
                         "hover:shadow-neon-blue/50 hover:border-neon-blue/50"),
    "default" := PriorityStyle("bg-gray-500", "bg-gray-500/10 text-gray-400 border-gray-500/20",
                               "hover:shadow-white/20 hover:border-white/30")
  ]

  const LightStyles: map<string, PriorityStyle> := map[
    High := PriorityStyle("bg-red-500", "bg-red-100 text-red-600 border-red-200", "hover:shadow-md hover:border-red-300"),
    Medium := PriorityStyle("bg-purple-500", "bg-purple-100 text-purple-600 border-purple-200",
                            "hover:shadow-md hover:border-purple-300"),
    Low := PriorityStyle("bg-blue-500", "bg-blue-100 text-blue-600 border-blue-200", "hover:shadow-md hover:border-blue-300"),
    "default" := PriorityStyle("bg-gray-400", "bg-gray-100 text-gray-600 border-gray-200", "hover:shadow-md hover:border-gray-300")
  ]

  /** `PRIORITY_STYLES[task.priority] || PRIORITY_STYLES.default`. */
  function StyleFor(priority: string, isDark: bool): (s: PriorityStyle)
    ensures var table := if isDark then DarkStyles else LightStyles;
            s == (if priority in table then table[priority] else table["default"])
  {
    var table := if isDark then DarkStyles else LightStyles;
    if priority in table then table[priority] else table["default"]
  }

  /** The three levels have styles of their own, distinct from each other
      and from the grey `default` style, which every other priority
      (an unset one included) falls back to. */
  lemma StyleFallback(priority: string, isDark: bool)
    ensures priority !in Priorities && priority != "default" ==> StyleFor(priority, isDark) == StyleFor("default", isDark)
    ensures StyleFor("", isDark) == StyleFor("default", isDark)
    ensures priority in Priorities ==> StyleFor(priority, isDark) != StyleFor("default", isDark)
    ensures StyleFor(High, isDark) != StyleFor(Medium, isDark) && StyleFor(Medium, isDark) != StyleFor(Low, isDark)
    ensures StyleFor(High, isDark) != StyleFor(Low, isDark)
  {
  }

  /** `task.priority || "Medium"`: the selector shows Medium for an unset priority. */
  function SelectorValue(priority: string): (v: string)
    ensures priority == "" ==> v == Medium
    ensures priority != "" ==> v == priority
  {
    if priority != "" then priority else Medium
  }

  /** The selector shows one of the three levels whenever the priority is
      one of them or unset. */
  lemma SelectorShowsALevel(priority: string)
    requires priority == "" || priority in Priorities
    ensures SelectorValue(priority) in Priorities
  {
  }

  // ---------------------------------------------------------------- completion flash

  /** The completion effect's state: the `prevColumnId` ref, the `flash`
      state, and whether the 600 ms timer that clears the flash is pending. */
  datatype FlashState = FlashState(prevColumnId: string, flash: bool, timerPending: bool)

  /** A card mounts with the ref at its column and no flash. */
  function Mounted(columnId: string): (s: FlashState)
    ensures s.prevColumnId == columnId && !s.flash && !s.timerPending
  {
    FlashState(columnId, false, false)
  }

  /** The effect re-running for a new `task.columnId`, as written: the
      previous run's cleanup cancels a pending timer; then a move from a
      column other than `done` into `done` turns the flash on and starts
      the timer without updating the ref, and any other move updates the ref. */
  function ColumnChanged(s: FlashState, columnId: string): (r: FlashState)
    ensures r.flash <==> s.flash || (s.prevColumnId != Done && columnId == Done)
    ensures r.timerPending <==> s.prevColumnId != Done && columnId == Done
    ensures r.prevColumnId == (if s.prevColumnId != Done && columnId == Done then s.prevColumnId else columnId)
  {
    if s.prevColumnId != Done && columnId == Done then FlashState(s.prevColumnId, true, true)
    else FlashState(columnId, s.flash, false)
  }

  /** The timer firing: `setFlash(false)`. */
  function TimerFired(s: FlashState): (r: FlashState)
    ensures s.timerPending ==> !r.flash && !r.timerPending
    ensures !s.timerPending ==> r == s
    ensures r.prevColumnId == s.prevColumnId
  {
    if s.timerPending then FlashState(s.prevColumnId, false, false) else s
  }

  /** As written: a card that sees its task enter `done` and leave it again
      before the timer fires keeps its flash on, with no timer left to clear
      it, for as long as that card stays mounted; moves to other columns and
      the timer's absence keep it on. */
  lemma FlashStaysOn()
    ensures var s := ColumnChanged(ColumnChanged(Mounted("todo"), Done), "doing");
            s.flash && !s.timerPending && TimerFired(s) == s
  {
  }

  /** As written, a flash without a pending timer survives every move that
      is not a fresh arrival in `done`. */
  lemma StuckFlashPersists(s: FlashState, columnId: string)
    requires s.flash && !s.timerPending
    requires !(s.prevColumnId != Done && columnId == Done)
    ensures ColumnChanged(s, columnId).flash && !ColumnChanged(s, columnId).timerPending
  {
  }

  /** The evidently intended effect: the cleanup that cancels the timer also
      turns the flash off, so the flash lasts only while its timer runs. */
  function ColumnChangedFixed(s: FlashState, columnId: string): (r: FlashState)
    ensures FlashBounded(s) ==> (r.flash <==> s.prevColumnId != Done && columnId == Done)
    ensures r.timerPending <==> s.prevColumnId != Done && columnId == Done
    ensures r.prevColumnId == (if s.prevColumnId != Done && columnId == Done then s.prevColumnId else columnId)
  {
    var cleaned := if s.timerPending then FlashState(s.prevColumnId, false, false) else s;
    if cleaned.prevColumnId != Done && columnId == Done then FlashState(cleaned.prevColumnId, true, true)
    else FlashState(columnId, cleaned.flash, false)
  }

  /** The flash is on only while a timer will turn it off. */
  predicate FlashBounded(s: FlashState) {
    s.flash ==> s.timerPending
  }

  /** The corrected effect and the timer keep every flash bounded, from the
      mount on, and agree with the effect as written whenever no flash is
      showing. */
  lemma FixedFlashAlwaysExpires(s: FlashState, columnId: string)
    requires FlashBounded(s)
    ensures FlashBounded(ColumnChangedFixed(s, columnId)) && FlashBounded(TimerFired(s))
    ensures FlashBounded(Mounted(columnId))
    ensures !s.flash ==> ColumnChangedFixed(s, columnId) == ColumnChanged(s, columnId)
  {
  }

  // ---------------------------------------------------------------- the card

  /** The card's view state. */
  class CardView {
    var mouseIsOver: bool
    var editMode: bool
    var isDeleting: bool
    var effect: FlashState

    constructor(columnId: string)
      ensures !mouseIsOver && !editMode && !isDeleting && effect == Mounted(columnId)
    {
      mouseIsOver := false;
      editMode := false;
      isDeleting := false;
      effect := Mounted(columnId);
    }

    /** The task's column changed (the effect's dependency). */
    method OnColumnChange(columnId: string)
      modifies this
      ensures effect == ColumnChanged(old(effect), columnId)
      ensures mouseIsOver == old(mouseIsOver) && editMode == old(editMode) && isDeleting == old(isDeleting)
    {
      if effect.timerPending {
        effect := effect.(timerPending := false);
      }
      if effect.prevColumnId != Done && columnId == Done {
        effect := effect.(flash := true, timerPending := true);
      } else {
        effect := effect.(prevColumnId := columnId);
      }
    }

    method OnFlashTimer()
      modifies this
      ensures effect == TimerFired(old(effect))
      ensures mouseIsOver == old(mouseIsOver) && editMode == old(editMode) && isDeleting == old(isDeleting)
    {
      if effect.timerPending {
        effect := FlashState(effect.prevColumnId, false, false);
      }
    }

    /** A click on the card. The normal view's `onClick` is
        `toggleEditMode`, which turns edit mode on and hides the actions;
        the edit view's `onClick` only stops the click's propagation. */
    method CardClick()
      modifies this
      ensures !old(editMode) ==> editMode && !mouseIsOver
      ensures old(editMode) ==> editMode && mouseIsOver == old(mouseIsOver)
      ensures isDeleting == old(isDeleting) && effect == old(effect)
    {
      if !editMode {
        editMode := true;
        mouseIsOver := false;
      }
    }

    /** The edit view's Done button: edit mode off, nothing else. */
    method DoneClick()
      modifies this
      ensures !editMode
      ensures mouseIsOver == old(mouseIsOver) && isDeleting == old(isDeleting) && effect == old(effect)
    {
      editMode := false;
    }

    /** The pointer enters the card: the normal view shows the actions; the
        edit view has no mouse handlers. */
    method MouseEnter()
      modifies this
      ensures !old(editMode) ==> mouseIsOver
      ensures old(editMode) ==> mouseIsOver == old(mouseIsOver)
      ensures editMode == old(editMode) && isDeleting == old(isDeleting) && effect == old(effect)
    {
      if !editMode {
        mouseIsOver := true;
      }
    }

    /** The pointer leaves the card: the normal view hides the actions and
        cancels a delete in progress; the edit view keeps both. */
    method MouseLeave()
      modifies this
      ensures !old(editMode) ==> !mouseIsOver && !isDeleting
      ensures old(editMode) ==> mouseIsOver == old(mouseIsOver) && isDeleting == old(isDeleting)
      ensures editMode == old(editMode) && effect == old(effect)
    {
      if !editMode {
        mouseIsOver := false;
        isDeleting := false;
      }
    }

    /** The trash button: the first step of a delete. */
    method TrashClick()
      modifies this
      ensures isDeleting
      ensures mouseIsOver == old(mouseIsOver) && editMode == old(editMode) && effect == old(effect)
    {
      isDeleting := true;
    }

    method CancelDelete()
      modifies this
      ensures !isDeleting
      ensures mouseIsOver == old(mouseIsOver) && editMode == old(editMode) && effect == old(effect)
    {
      isDeleting := false;
    }

    /** The Delete button, the second step: it exists, and so calls
        `deleteTask`, only while the actions show and a delete was started. */
    method ConfirmDelete() returns (deleteCalled: bool)
      ensures deleteCalled <==> mouseIsOver && isDeleting && !editMode
    {
      deleteCalled := mouseIsOver && isDeleting && !editMode;
    }

    /** A key in the title input: Enter and Escape leave edit mode. */
    method TitleKey(key: string)
      modifies this
      ensures editMode == (old(editMode) && key != "Enter" && key != "Escape")
      ensures mouseIsOver == old(mouseIsOver) && isDeleting == old(isDeleting) && effect == old(effect)
    {
      if key == "Enter" || key == "Escape" {
        editMode := false;
      }
    }

    /** A key in the details textarea: only Escape leaves edit mode. */
    method ContentKey(key: string)
      modifies this
      ensures editMode == (old(editMode) && key != "Escape")
      ensures mouseIsOver == old(mouseIsOver) && isDeleting == old(isDeleting) && effect == old(effect)
    {
      if key == "Escape" {
        editMode := false;
      }
    }
  }

  /** A delete takes two steps: a card fresh from mounting, hovered, does
      not delete on the Delete action until the trash button was pressed. */
  method TwoStepDelete(columnId: string) returns (first: bool, second: bool)
    ensures !first && second
  {
    var card := new CardView(columnId);
    card.MouseEnter();
    first := card.ConfirmDelete();
    card.TrashClick();
    second := card.ConfirmDelete();
  }

  /** A delete started before editing survives the edit: hover, press the
      trash button, click into edit mode, leave the card, press Escape and
      hover again, and the Delete action is still offered and deletes. */
  method DeleteSurvivesEditing(columnId: string) returns (deleteCalled: bool)
    ensures deleteCalled
  {
    var card := new CardView(columnId);
    card.MouseEnter();
    card.TrashClick();
    card.CardClick();
    card.MouseLeave();
    card.TitleKey("Escape");
    card.MouseEnter();
    deleteCalled := card.ConfirmDelete();
  }
}
