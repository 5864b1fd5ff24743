/**
 * The `Task` entity of the server: an id generated by the persistence layer, a text that
 * must be present and non-empty to be stored, and two flags.
 */
module TaskModel {
  import opened Wrappers
  import opened JavaText

  /** The value of a `Task` object's four fields; `None` is a null reference. */
  datatype TaskRecord = TaskRecord(id: Option<int>, text: Option<string>, urgent: bool, completed: bool)

  /** The column constraints on `text`: not null, and at least one character long. */
  function Persistable(t: TaskRecord): (ok: bool)
    ensures ok <==> t.text != None && t.text != Some("")
  {
    t.text.Some? && |t.text.value| >= 1
  }

  class Task {
    var id: Option<int>
    var text: Option<string>
    var urgent: bool
    var completed: bool

    function Record(): TaskRecord
      reads this
    {
      TaskRecord(id, text, urgent, completed)
    }

    /** The no-argument constructor: every reference field null and both flags false. */
    constructor Empty()
      ensures Record() == TaskRecord(None, None, false, false)
    {
      id := None;
      text := None;
      urgent := false;
      completed := false;
    }

    /** Stores the three values as given; the id stays null until the task is saved. */
    constructor (text: Option<string>, urgent: bool, completed: bool)
      ensures Record() == TaskRecord(None, text, urgent, completed)
    {
      this.id := None;
      this.text := text;
      this.urgent := urgent;
      this.completed := completed;
    }

    method GetId() returns (r: Option<int>)
      ensures r == id
    {
      r := id;
    }

    method SetId(id: Option<int>)
      modifies this`id
      ensures Record() == old(Record()).(id := id)
    {
      this.id := id;
    }

    method GetText() returns (r: Option<string>)
      ensures r == text
    {
      r := text;
    }

    method SetText(text: Option<string>)
      modifies this`text
      ensures Record() == old(Record()).(text := text)
    {
      this.text := text;
    }

    method IsUrgent() returns (r: bool)
      ensures r == urgent
    {
      r := urgent;
    }

    method SetUrgent(urgent: bool)
      modifies this`urgent
      ensures Record() == old(Record()).(urgent := urgent)
    {
      this.urgent := urgent;
    }

    method IsCompleted() returns (r: bool)
      ensures r == completed
    {
      r := completed;
    }

    method SetCompleted(completed: bool)
      modifies this`completed
      ensures Record() == old(Record()).(completed := completed)
    {
      this.completed := completed;
    }

    /** Java's `toString()`: `Task{id=.., text='..', urgent=.., completed=..}`, `null` for a null reference. */
    function ToString(): (r: string)
      reads this
      ensures |r| > |Opening| && r[..|Opening|] == Opening
      ensures r[|r| - 1] == '}'
    {
      "Task{" + "id=" + NullableLongString(id) + ", text='" + NullableString(text) + "'"
      + ", urgent=" + BoolString(urgent) + ", completed=" + BoolString(completed) + "}"
    }
  }

  /** What can be read back from `ToString()`: a null text and the text "null" print alike. */
  datatype Description = Description(id: Option<int>, text: string, urgent: bool, completed: bool)

  const Opening := "Task{id="
  const TextLabel := ", text='"
  const UrgentLabel := "', urgent="
  const CompletedLabel := ", completed="
  const Closing := "}"

  /** The index of the first c in s, or |s| when there is none. */
  function IndexOf(s: string, c: char): (p: nat)
    ensures p <= |s|
    ensures p < |s| ==> s[p] == c
    ensures forall i :: 0 <= i < p ==> s[i] != c
  {
    if |s| == 0 || s[0] == c then 0 else 1 + IndexOf(s[1..], c)
  }

  /** Splits a trailing `name + "true" + close` or `name + "false" + close` off s. */
  function SplitFlag(s: string, name: string, close: string): Option<(string, bool)> {
    var t := name + "true" + close;
    var f := name + "false" + close;
    if |t| <= |s| && s[|s| - |t|..] == t then Some((s[..|s| - |t|], true))
    else if |f| <= |s| && s[|s| - |f|..] == f then Some((s[..|s| - |f|], false))
    else None
  }

  /** Reads a string in the format of `Task.ToString()`. */
  function ParseDescription(s: string): Option<Description> {
    if |s| < |Opening| || s[..|Opening|] != Opening then None else ParseFields(s[|Opening|..])
  }

  /** Reads what follows the opening: the id up to the first comma, then the text and the flags. */
  function ParseFields(rest: string): Option<Description> {
    var p := IndexOf(rest, ',');
    if |rest| - p < |TextLabel| || rest[p..p + |TextLabel|] != TextLabel then None
    else
      match ParseNullableLong(rest[..p])
      case None => None
      case Some(id) =>
        match ParseFlags(rest[p + |TextLabel|..])
        case None => None
        case Some(fields) => Some(Description(id, fields.0, fields.1, fields.2))
  }

  /** Reads the text and the two flags from the end of the string. */
  function ParseFlags(tail: string): Option<(string, bool, bool)> {
    match SplitFlag(tail, CompletedLabel, Closing)
    case None => None
    case Some((front, completed)) =>
      match SplitFlag(front, UrgentLabel, "")
      case None => None
      case Some((text, urgent)) => Some((text, urgent, completed))
  }

  lemma SplitFlagOf(x: string, name: string, close: string, b: bool)
    ensures SplitFlag(x + name + BoolString(b) + close, name, close) == Some((x, b))
  {
    var s := x + name + BoolString(b) + close;
    var t := name + "true" + close;
    if b {
      assert s[|s| - |t|..] == t;
      assert s[..|s| - |t|] == x;
    } else {
      var f := name + "false" + close;
      assert s[|s| - |t|..] != t by {
        assert s[|s| - |t|..][|name|] == 'a';
      }
      assert s[|s| - |f|..] == f;
      assert s[..|s| - |f|] == x;
    }
  }

  lemma ParseFlagsOf(text: string, urgent: bool, completed: bool)
    ensures ParseFlags(text + UrgentLabel + BoolString(urgent) + CompletedLabel + BoolString(completed) + Closing)
         == Some((text, urgent, completed))
  {
    var front := text + UrgentLabel + BoolString(urgent);
    SplitFlagOf(front, CompletedLabel, Closing, completed);
    assert front == text + UrgentLabel + BoolString(urgent) + "";
    SplitFlagOf(text, UrgentLabel, "", urgent);
  }

  lemma ParseFieldsOf(id: Option<int>, body: string)
    ensures ParseFields(NullableLongString(id) + TextLabel + body)
         == match ParseFlags(body)
            case None => None
            case Some(fields) => Some(Description(id, fields.0, fields.1, fields.2))
  {
    var idS := NullableLongString(id);
    var rest := idS + TextLabel + body;
    var p := IndexOf(rest, ',');
    assert rest[|idS|] == ',';
    assert forall i :: 0 <= i < |idS| ==> rest[i] == idS[i];
    assert p == |idS|;
    assert rest[..p] == idS;
    assert rest[p..p + |TextLabel|] == TextLabel;
    assert rest[p + |TextLabel|..] == body;
    ParseNullableLongString(id);
  }

  /** The layout of `ToString()`, regrouped into the pieces the parser reads. */
  lemma ToStringLayout(idS: string, textS: string, urgentS: string, completedS: string)
    ensures "Task{" + "id=" + idS + ", text='" + textS + "'" + ", urgent=" + urgentS + ", completed=" + completedS + "}"
         == Opening + (idS + TextLabel + (textS + UrgentLabel + urgentS + CompletedLabel + completedS + Closing))
  {
  }

  /** `ToString()` determines the id, the printed text and both flags. */
  lemma ToStringRoundTrip(t: Task)
    ensures ParseDescription(t.ToString()) == Some(Description(t.id, NullableString(t.text), t.urgent, t.completed))
  {
    var textS := NullableString(t.text);
    var body := textS + UrgentLabel + BoolString(t.urgent) + CompletedLabel + BoolString(t.completed) + Closing;
    var rest := NullableLongString(t.id) + TextLabel + body;
    var s := t.ToString();
    ToStringLayout(NullableLongString(t.id), textS, BoolString(t.urgent), BoolString(t.completed));
    assert s == Opening + rest;
    assert s[..|Opening|] == Opening;
    assert s[|Opening|..] == rest;
    ParseFieldsOf(t.id, body);
    ParseFlagsOf(textS, t.urgent, t.completed);
  }
}
