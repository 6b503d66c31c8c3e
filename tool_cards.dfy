/**
 * The tool forms of the GUI (gui/tool_cards.py): the category card's tools
 * label, and `ToolWidget`, a form of typed fields with Reset, Preview and
 * Run buttons. Qt widgets are modelled by `Widget` values holding exactly
 * the state the form reads back; the Run button's confirmation dialog is a
 * boolean input and the run callback's invocation is the returned decision.
 */
module ToolCards {
  import opened Wrappers
  import Strings

  /** `ToolCategoryCard`'s label: `Tools: ` and at most the first three tools, then `...`. */
  function ToolsLabel(tools: seq<string>): string
  {
    "Tools: " + Strings.Join(", ", tools[..if |tools| < 3 then |tools| else 3]) + "..."
  }

  /**
   * The label always reads `Tools: ` ... `...`; it lists all tools when there
   * are at most three and otherwise does not depend on any tool past the third.
   */
  lemma ToolsLabelSpec(tools: seq<string>, more: seq<string>)
    ensures var l := ToolsLabel(tools);
      |l| >= 10 && l[..7] == "Tools: " && l[|l| - 3..] == "..."
    ensures |tools| <= 3 ==> ToolsLabel(tools) == "Tools: " + Strings.Join(", ", tools) + "..."
    ensures |tools| >= 3 ==> ToolsLabel(tools + more) == ToolsLabel(tools)
  {
    if |tools| >= 3 {
      assert (tools + more)[..3] == tools[..3];
    } else {
      assert tools[..|tools|] == tools;
    }
  }

  /**
   * The configuration of one form field by its `type`, with the keys each
   * type reads: `default` (`None` when the key is absent), `options`, and for
   * numbers `min` and `max` (0 and 999999 when absent). A missing or
   * unrecognised `type` is `TextKind` or `UnknownKind` respectively.
   */
  datatype FieldKind =
    | TextKind(textDefault: Option<string>)
    | NumberKind(min: int, max: int, numberDefault: Option<int>)
    | SelectKind(options: seq<string>)
    | MultiselectKind(options: seq<string>, textDefault: Option<string>)
    | CheckboxKind(boolDefault: Option<bool>)
    | FileKind(pathDefault: Option<string>)
    | UnknownKind(textDefault: Option<string>)

  datatype Field = Field(name: string, caption: string, required: bool, kind: FieldKind)

  /** The label `setup_ui` shows: the configured label, with ` *` iff the field is required. */
  function LabelText(f: Field): (r: string)
    ensures |r| >= |f.caption| && r[..|f.caption|] == f.caption
    ensures |r| == |f.caption| + 2 <==> f.required
    ensures |r| == |f.caption| <==> !f.required
    ensures f.required ==> r[|f.caption|..] == " *"
  {
    if f.required then f.caption + " *" else f.caption
  }

  /** The state of an input widget that the form reads back. */
  datatype Widget =
    | LineEdit(text: string)
    | SpinBox(value: int, min: int, max: int)
    | ComboBox(items: seq<string>, index: int)
    | CheckBox(checked: bool)
    | FileSelector(path: string)

  /** A collected field value. */
  datatype FieldValue = Text(s: string) | Int(n: int) | Bool(b: bool) | Choice(choice: string) | Path(path: string)

  /** `QSpinBox.setValue`: the value is kept inside `[min, max]`. */
  function Clamp(v: int, min: int, max: int): (r: int)
    requires min <= max
    ensures min <= r <= max
    ensures min <= v <= max ==> r == v
    ensures v < min ==> r == min
    ensures v > max ==> r == max
  {
    if v < min then min else if v > max then max else v
  }

  /** `setMinimum(min)` then `setMaximum(max)`: a maximum below the minimum pulls the minimum down. */
  function SpinMin(k: FieldKind): int
    requires k.NumberKind?
  {
    if k.max < k.min then k.max else k.min
  }

  /** `QComboBox.currentText()` */
  function CurrentText(items: seq<string>, index: int): string
  {
    if 0 <= index < |items| then items[index] else ""
  }

  /** The `default` of a field as `field.get('default', ...)` reads it for each widget type. */
  function TextDefault(k: FieldKind): string
  {
    match k
    case TextKind(d) => d.GetOr("")
    case MultiselectKind(_, d) => d.GetOr("")
    case UnknownKind(d) => d.GetOr("")
    case FileKind(d) => d.GetOr("")
    case _ => ""
  }

  /** `create_input_widget(field)` */
  function CreateWidget(k: FieldKind): Widget
  {
    match k
    case TextKind(d) => LineEdit(d.GetOr(""))
    case NumberKind(min, max, d) => SpinBox(Clamp(d.GetOr(0), SpinMin(k), max), SpinMin(k), max)
    case SelectKind(options) => ComboBox(options, if |options| > 0 then 0 else -1)
    case MultiselectKind(_, _) => LineEdit("")
    case CheckboxKind(d) => CheckBox(d.GetOr(false))
    case FileKind(d) => FileSelector(d.GetOr(""))
    case UnknownKind(_) => LineEdit("")
  }

  /** The widget made for a kind has that kind's shape (and its spin box a valid range). */
  predicate Fits(w: Widget, k: FieldKind)
  {
    match k
    case TextKind(_) => w.LineEdit?
    case NumberKind(_, max, _) => w.SpinBox? && w.min == SpinMin(k) && w.max == max && w.min <= w.value <= w.max
    case SelectKind(options) => w.ComboBox? && w.items == options
    case MultiselectKind(_, _) => w.LineEdit?
    case CheckboxKind(_) => w.CheckBox?
    case FileKind(_) => w.FileSelector?
    case UnknownKind(_) => w.LineEdit?
  }

  lemma CreateWidgetFits(k: FieldKind)
    ensures Fits(CreateWidget(k), k)
  {
  }

  /** One field's part of `get_field_values`: the value read from its widget. */
  function ReadWidget(w: Widget): FieldValue
  {
    match w
    case LineEdit(text) => Text(text)
    case SpinBox(value, _, _) => Int(value)
    case ComboBox(items, index) => Choice(CurrentText(items, index))
    case CheckBox(checked) => Bool(checked)
    case FileSelector(path) => Path(path)
  }

  /**
   * `FileSelector.browse_file` given the path the file dialog returned
   * (`''` when cancelled): a chosen path replaces the shown one, a
   * cancelled dialog keeps it.
   */
  function Browse(w: Widget, chosen: string): (r: Widget)
    requires w.FileSelector?
    ensures r.FileSelector?
    ensures ReadWidget(r) == Path(if chosen == "" then w.path else chosen)
  {
    if chosen != "" then FileSelector(chosen) else w
  }

  /** One field's part of `reset_fields`, chosen by the widget's type. */
  function ResetWidget(w: Widget, k: FieldKind): Widget
  {
    match w
    case LineEdit(_) => LineEdit(TextDefault(k))
    case SpinBox(_, min, max) =>
      var d := if k.NumberKind? then k.numberDefault.GetOr(0) else 0;
      if min <= max then SpinBox(Clamp(d, min, max), min, max) else w
    case ComboBox(items, _) => ComboBox(items, if |items| > 0 then 0 else -1)
    case CheckBox(_) => CheckBox(if k.CheckboxKind? then k.boolDefault.GetOr(false) else false)
    case FileSelector(_) => FileSelector(TextDefault(k))
  }

  /**
   * After a reset each field reads its type's default: text and file their
   * default or `''`, number its default or 0 (kept in range), select its
   * first option, checkbox its default or False, whatever the widget held.
   */
  lemma ResetReadsDefault(w: Widget, k: FieldKind)
    requires Fits(w, k)
    ensures Fits(ResetWidget(w, k), k)
    ensures var v := ReadWidget(ResetWidget(w, k));
      match k
      case TextKind(d) => v == Text(d.GetOr(""))
      case NumberKind(_, max, d) => v == Int(Clamp(d.GetOr(0), SpinMin(k), max))
      case SelectKind(options) => v == Choice(if |options| > 0 then options[0] else "")
      case MultiselectKind(_, d) => v == Text(d.GetOr(""))
      case CheckboxKind(d) => v == Bool(d.GetOr(false))
      case FileKind(d) => v == Path(d.GetOr(""))
      case UnknownKind(d) => v == Text(d.GetOr(""))
  {
  }

  /**
   * Reset brings a field back to the widget first created for it, except a
   * multiselect or untyped field with a `default`: their widget starts empty
   * and the reset writes the default into it.
   */
  lemma ResetRestoresCreated(w: Widget, k: FieldKind)
    requires Fits(w, k)
    ensures ResetWidget(w, k) == CreateWidget(k) <==>
      !((k.MultiselectKind? || k.UnknownKind?) && k.textDefault.Some? && k.textDefault.value != "")
  {
  }

  /** Python truthiness of a collected value; a missing value is `None`, which is falsy. */
  predicate Truthy(v: FieldValue)
  {
    match v
    case Text(s) => s != ""
    case Int(n) => n != 0
    case Bool(b) => b
    case Choice(s) => s != ""
    case Path(s) => s != ""
  }

  predicate IsTruthy(v: Option<FieldValue>)
  {
    v.Some? && Truthy(v.value)
  }

  /** `dict.get` on the collected values, an association list in insertion order. */
  function Lookup(values: seq<(string, FieldValue)>, key: string): Option<FieldValue>
    decreases |values|
  {
    if |values| == 0 then None
    else if values[0].0 == key then Some(values[0].1)
    else Lookup(values[1..], key)
  }

  /** With distinct keys, looking up the key of entry `i` finds entry `i`. */
  lemma {:induction false} LookupDistinct(values: seq<(string, FieldValue)>, i: nat)
    requires i < |values|
    requires forall a, b :: 0 <= a < b < |values| ==> values[a].0 != values[b].0
    ensures Lookup(values, values[i].0) == Some(values[i].1)
    decreases |values|
  {
    if i > 0 {
      assert values[0].0 != values[i].0;
      LookupDistinct(values[1..], i - 1);
    }
  }

  /** `str(v)` as an f-string renders a collected value. */
  function ValueText(v: FieldValue): string
  {
    match v
    case Text(s) => s
    case Int(n) => Strings.IntToString(n)
    case Bool(b) => Strings.BoolToString(b)
    case Choice(s) => s
    case Path(s) => s
  }

  /** The `--k v` parts of the generic preview, one per truthy value, in order. */
  function PreviewArgs(values: seq<(string, FieldValue)>): seq<string>
    decreases |values|
  {
    if |values| == 0 then []
    else (if Truthy(values[0].1) then ["--" + values[0].0 + " " + ValueText(values[0].1)] else [])
         + PreviewArgs(values[1..])
  }

  /**
   * The preview parts follow the values: those of a concatenation are the
   * parts of each half in turn, and one value gives its `--k v` iff truthy.
   */
  lemma {:induction false} PreviewArgsAppend(a: seq<(string, FieldValue)>, b: seq<(string, FieldValue)>)
    ensures PreviewArgs(a + b) == PreviewArgs(a) + PreviewArgs(b)
    ensures |a| == 1 ==> PreviewArgs(a) == if Truthy(a[0].1) then ["--" + a[0].0 + " " + ValueText(a[0].1)] else []
    decreases |a|
  {
    if |a| == 0 {
      assert a + b == b;
    } else {
      assert (a + b)[1..] == a[1..] + b;
      PreviewArgsAppend(a[1..], b);
      if |a| == 1 {
        assert a[1..] == [];
      }
    }
  }

  /** The preview has no parts exactly when no value is truthy. */
  lemma {:induction false} PreviewArgsEmpty(values: seq<(string, FieldValue)>)
    ensures (forall i :: 0 <= i < |values| ==> !Truthy(values[i].1)) <==> PreviewArgs(values) == []
    decreases |values|
  {
    if |values| > 0 {
      PreviewArgsEmpty(values[1..]);
      if PreviewArgs(values) == [] {
        forall i | 0 <= i < |values| ensures !Truthy(values[i].1) {
          if i > 0 {
            assert values[1..][i - 1] == values[i];
          }
        }
      }
      if forall i :: 0 <= i < |values| ==> !Truthy(values[i].1) {
        assert !Truthy(values[0].1);
        forall i | 0 <= i < |values[1..]| ensures !Truthy(values[1..][i].1) {
          assert values[1..][i] == values[i + 1];
        }
      }
    }
  }

  /** `build_command_preview(values)`: the lower-cased tool name, a space, then the parts joined by spaces. */
  function BuildCommandPreview(name: string, values: seq<(string, FieldValue)>): (r: string)
    ensures |r| > |name| && r[..|name| + 1] == Strings.Lower(name) + " "
    ensures (forall i :: 0 <= i < |values| ==> !Truthy(values[i].1)) ==> r == Strings.Lower(name) + " "
  {
    PreviewArgsEmpty(values);
    Strings.Lower(name) + " " + Strings.Join(" ", PreviewArgs(values))
  }

  /** The tools whose Run button asks for confirmation first. */
  const DangerousTools: set<string> := {"Aircrack-ng", "SQLMap", "Metasploit Console"}

  /** What pressing Run leads to: a validation warning, a declined confirmation, or the callback with the values. */
  datatype Decision = Rejected(message: string) | Declined | Invoked(values: seq<(string, FieldValue)>)

  function MissingMessage(caption: string): string
  {
    "Required field '" + caption + "' is empty."
  }

  predicate DistinctNames(fields: seq<Field>)
  {
    forall i, j :: 0 <= i < j < |fields| ==> fields[i].name != fields[j].name
  }

  class ToolWidget {
    const name: string
    const description: string
    /** `fields_config` */
    const fields: seq<Field>
    /** The label text of each row of the form. */
    var labels: seq<string>
    /** `field_widgets`, in field order (names are distinct, so insertion order is field order). */
    var widgets: seq<Widget>
    /** The text of the preview area. */
    var preview: string

    ghost predicate Valid()
      reads this
    {
      && DistinctNames(fields)
      && |labels| == |fields| && |widgets| == |fields|
      && forall i :: 0 <= i < |fields| ==> Fits(widgets[i], fields[i].kind)
    }

    /** A required field whose collected value is falsy. */
    predicate Missing(i: nat)
      reads this
      requires Valid() && i < |fields|
    {
      fields[i].required && !Truthy(ReadWidget(widgets[i]))
    }

    /** `__init__` and `setup_ui`: one labelled row and one fresh widget per field, in order. */
    constructor (name: string, description: string, fields: seq<Field>)
      requires DistinctNames(fields)
      ensures Valid() && this.name == name && this.description == description && this.fields == fields
      ensures forall i :: 0 <= i < |fields| ==> labels[i] == LabelText(fields[i]) && widgets[i] == CreateWidget(fields[i].kind)
      ensures preview == ""
    {
      this.name := name;
      this.description := description;
      this.fields := fields;
      var labels: seq<string> := [];
      var widgets: seq<Widget> := [];
      var row := 0;
      while row < |fields|
        invariant 0 <= row <= |fields| && |labels| == row && |widgets| == row
        invariant forall i :: 0 <= i < row ==> labels[i] == LabelText(fields[i]) && widgets[i] == CreateWidget(fields[i].kind)
      {
        labels := labels + [LabelText(fields[row])];
        CreateWidgetFits(fields[row].kind);
        widgets := widgets + [CreateWidget(fields[row].kind)];
        row := row + 1;
      }
      this.labels := labels;
      this.widgets := widgets;
      preview := "";
    }

    /** `get_field_values`: one entry per field, keyed by its name, read from its widget. */
    method GetFieldValues() returns (values: seq<(string, FieldValue)>)
      requires Valid()
      ensures |values| == |fields|
      ensures forall i :: 0 <= i < |fields| ==> values[i] == (fields[i].name, ReadWidget(widgets[i]))
      ensures forall i :: 0 <= i < |fields| ==> Lookup(values, fields[i].name) == Some(ReadWidget(widgets[i]))
    {
      values := [];
      var i := 0;
      while i < |widgets|
        invariant 0 <= i <= |widgets| && |values| == i
        invariant forall j :: 0 <= j < i ==> values[j] == (fields[j].name, ReadWidget(widgets[j]))
      {
        values := values + [(fields[i].name, ReadWidget(widgets[i]))];
        i := i + 1;
      }
      forall j | 0 <= j < |fields| ensures Lookup(values, fields[j].name) == Some(ReadWidget(widgets[j])) {
        LookupDistinct(values, j);
      }
    }

    /** `reset_fields`: every widget back to its field's default, then the preview cleared. */
    method ResetFields()
      requires Valid()
      modifies this`widgets, this`preview
      ensures Valid()
      ensures forall i :: 0 <= i < |fields| ==> widgets[i] == ResetWidget(old(widgets[i]), fields[i].kind)
      ensures preview == ""
    {
      var i := 0;
      while i < |fields|
        invariant 0 <= i <= |fields| && |widgets| == |fields|
        invariant forall j :: 0 <= j < i ==> widgets[j] == ResetWidget(old(widgets[j]), fields[j].kind)
        invariant forall j :: i <= j < |fields| ==> widgets[j] == old(widgets[j])
        invariant forall j :: 0 <= j < |fields| ==> Fits(widgets[j], fields[j].kind)
      {
        ResetReadsDefault(widgets[i], fields[i].kind);
        widgets := widgets[i := ResetWidget(widgets[i], fields[i].kind)];
        i := i + 1;
      }
      preview := "";
    }

    /** `preview_command`: the generic preview of the current values. */
    method PreviewCommand()
      requires Valid()
      modifies this`preview
      ensures exists values: seq<(string, FieldValue)> ::
        |values| == |fields| &&
        (forall i :: 0 <= i < |fields| ==> values[i] == (fields[i].name, ReadWidget(widgets[i]))) &&
        preview == BuildCommandPreview(name, values)
    {
      var values := GetFieldValues();
      preview := BuildCommandPreview(name, values);
    }

    /**
     * `execute_tool(confirmed)`: warn about the first required field, in
     * field order, whose value is falsy; otherwise, for a dangerous tool,
     * stop unless the user confirmed; otherwise call the callback once with
     * the collected values.
     */
    method ExecuteTool(confirmed: bool) returns (d: Decision)
      requires Valid()
      ensures d.Rejected? <==> exists i :: 0 <= i < |fields| && Missing(i)
      ensures d.Rejected? ==> exists i :: (0 <= i < |fields| && Missing(i) &&
        (forall j :: 0 <= j < i ==> !Missing(j)) && d.message == MissingMessage(fields[i].caption))
      ensures d.Declined? <==> (forall i :: 0 <= i < |fields| ==> !Missing(i)) && name in DangerousTools && !confirmed
      ensures d.Invoked? ==> (|d.values| == |fields| &&
        forall i :: 0 <= i < |fields| ==> d.values[i] == (fields[i].name, ReadWidget(widgets[i])))
    {
      var values := GetFieldValues();
      var i := 0;
      while i < |fields|
        invariant 0 <= i <= |fields|
        invariant forall j :: 0 <= j < i ==> !Missing(j)
      {
        if fields[i].required && !IsTruthy(Lookup(values, fields[i].name)) {
          assert Missing(i);
          return Rejected(MissingMessage(fields[i].caption));
        }
        i := i + 1;
      }
      if name in DangerousTools {
        if !confirmed {
          return Declined;
        }
      }
      return Invoked(values);
    }
  }
}
