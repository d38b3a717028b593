/**
 * The care-portal menu element of the automation editor: a choice of one
 * of four care-portal event types, each tied to a therapy-event type, two
 * text resources and an icon, shown in a spinner in declaration order.
 */
module CarePortal {

  /** The therapy-event types the menu can produce (`TherapyEvent.Type`). */
  datatype TherapyType = NOTE | EXERCISE | QUESTION | ANNOUNCEMENT

  datatype EventType = NOTE | EXERCISE | QUESTION | ANNOUNCEMENT
  {
    function TherapyEventType(): TherapyType
    {
      match this
      case NOTE => TherapyType.NOTE
      case EXERCISE => TherapyType.EXERCISE
      case QUESTION => TherapyType.QUESTION
      case ANNOUNCEMENT => TherapyType.ANNOUNCEMENT
    }

    /** The resource of the message text that carries a value. */
    function StringResWithValue(): string
    {
      match this
      case NOTE => "careportal_note_message"
      case EXERCISE => "careportal_exercise_message"
      case QUESTION => "careportal_question_message"
      case ANNOUNCEMENT => "careportal_announcement_message"
    }

    /** The resource of the type's name, as listed in the spinner. */
    function StringRes(): string
    {
      match this
      case NOTE => "careportal_note"
      case EXERCISE => "careportal_exercise"
      case QUESTION => "careportal_question"
      case ANNOUNCEMENT => "careportal_announcement"
    }

    function DrawableRes(): string
    {
      match this
      case NOTE => "ic_cp_note"
      case EXERCISE => "ic_cp_exercise"
      case QUESTION => "ic_cp_question"
      case ANNOUNCEMENT => "ic_cp_announcement"
    }

    /** The declaration index, as Kotlin's `ordinal`. */
    function Ordinal(): (i: nat)
      ensures i < 4
    {
      match this
      case NOTE => 0
      case EXERCISE => 1
      case QUESTION => 2
      case ANNOUNCEMENT => 3
    }
  }

  /** `EventType.values()`: every type, in declaration order. */
  const Values: seq<EventType> := [EventType.NOTE, EventType.EXERCISE, EventType.QUESTION, EventType.ANNOUNCEMENT]

  /** Each type sits in `Values` at its ordinal. */
  lemma OrdinalRoundTrip(e: EventType)
    ensures e.Ordinal() < |Values| && Values[e.Ordinal()] == e
  {
  }

  /** The type at a position has that position as its ordinal. */
  lemma PositionRoundTrip(i: int)
    requires 0 <= i < |Values|
    ensures Values[i].Ordinal() == i
  {
  }

  /** Each menu type names its own therapy-event type, and no two share one. */
  lemma TherapyTypesDistinct(e1: EventType, e2: EventType)
    ensures e1.TherapyEventType() == e2.TherapyEventType() <==> e1 == e2
  {
  }

  /** No two types share a name, a message or an icon resource. */
  lemma ResourcesDistinct(e1: EventType, e2: EventType)
    ensures e1.StringRes() == e2.StringRes() <==> e1 == e2
    ensures e1.StringResWithValue() == e2.StringResWithValue() <==> e1 == e2
    ensures e1.DrawableRes() == e2.DrawableRes() <==> e1 == e2
  {
  }

  /**
   * `EventType.labels`: the localized name of every type, in declaration
   * order; `gs` stands for the resource lookup.
   */
  method Labels(gs: string -> string) returns (list: seq<string>)
    ensures |list| == |Values|
    ensures forall i :: 0 <= i < |Values| ==> list[i] == gs(Values[i].StringRes())
  {
    list := [];
    for k := 0 to |Values|
      invariant |list| == k
      invariant forall i :: 0 <= i < k ==> list[i] == gs(Values[i].StringRes())
    {
      list := list + [gs(Values[k].StringRes())];
    }
  }

  class InputCarePortalMenu {
    var value: EventType

    constructor ()
      ensures value == EventType.NOTE
    {
      value := EventType.NOTE;
    }

    /** The secondary constructor that starts from a given type. */
    constructor WithValue(value: EventType)
      ensures this.value == value
    {
      this.value := value;
    }

    /** The position the spinner is set to when the element is laid out. */
    function InitialSelection(): (position: nat)
      reads this
      ensures position < |Values| && Values[position] == value
    {
      value.Ordinal()
    }

    /** The spinner's selection listener: the type at the chosen position becomes the value. */
    method OnItemSelected(position: int)
      requires 0 <= position < |Values|
      modifies this
      ensures value == Values[position]
      ensures InitialSelection() == position
    {
      value := Values[position];
    }

    method SetValue(eventType: EventType) returns (self: InputCarePortalMenu)
      modifies this
      ensures value == eventType
      ensures self == this
    {
      value := eventType;
      self := this;
    }
  }

  /** Laying out a menu and picking the preselected entry leaves its value as it was. */
  method SelectionRoundTrip(e: EventType)
  {
    var menu := new InputCarePortalMenu.WithValue(e);
    var position := menu.InitialSelection();
    menu.OnItemSelected(position);
    assert menu.value == e;
    var same := menu.SetValue(EventType.EXERCISE);
    assert same.value == EventType.EXERCISE && same.InitialSelection() == 1;
  }
}
