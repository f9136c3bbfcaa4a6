/**
 * The questionnaire controller (src/components/Questionnaire.tsx): the answer
 * values, the required-answer gate, the multi-select toggle, the input
 * handlers of each question kind and the component state walked by Next and
 * Back.
 */
module Questionnaire {
  import opened Wrappers
  import opened JsStrings
  import opened QuizData

  /**
   * A stored answer.  The source keeps `Record<string, any>`; the values its
   * inputs produce are strings (text, textarea, select), string lists
   * (multi-select) and numbers (rating).
   */
  datatype Answer = TextAnswer(text: string) | ListAnswer(items: seq<string>) | NumberAnswer(n: int)

  /** JavaScript truthiness of an answer value: "" and 0 are falsy, every array is truthy. */
  predicate Truthy(a: Answer) {
    match a
    case TextAnswer(t) => t != ""
    case ListAnswer(_) => true
    case NumberAnswer(n) => n != 0
  }

  /** The `isAnswered` gate for question `q` whose stored answer is `a`. */
  predicate Answered(q: Question, a: Option<Answer>) {
    if !q.required then true
    else if a.None? || !Truthy(a.value) then false
    else match a.value
      case ListAnswer(items) => |items| > 0
      case TextAnswer(t) => |Trim(t)| > 0
      case NumberAnswer(_) => true
  }

  /**
   * An optional question always passes; a required one fails exactly when its
   * answer is absent, an empty or all-white-space string, an empty list or 0.
   */
  lemma AnsweredCases(q: Question, a: Option<Answer>)
    ensures !q.required ==> Answered(q, a)
    ensures q.required ==>
      (!Answered(q, a) <==>
        || a.None?
        || (a.value.TextAnswer? && IsBlank(a.value.text))
        || a.value == ListAnswer([])
        || a.value == NumberAnswer(0))
  {
    if a.Some? && a.value.TextAnswer? {
      TrimEmptyIffBlank(a.value.text);
    }
  }

  // ---------------------------------------------------------------------------
  // The multi-select toggle

  predicate Distinct(s: seq<string>) {
    forall i, j :: 0 <= i < j < |s| ==> s[i] != s[j]
  }

  /** `selected.filter((v) => v !== x)`. */
  function Remove(selected: seq<string>, x: string): (r: seq<string>)
    ensures x !in r
    ensures forall y :: y != x ==> (y in r <==> y in selected)
    ensures multiset(r) == multiset(selected)[x := 0]
  {
    if selected == [] then []
    else
      var rest := Remove(selected[1..], x);
      assert selected == [selected[0]] + selected[1..];
      if selected[0] == x then rest else [selected[0]] + rest
  }

  /** The click handler of one multi-select option: drop the value if selected, else append it. */
  function Toggle(selected: seq<string>, v: string): seq<string> {
    if v in selected then Remove(selected, v) else selected + [v]
  }

  /** After a toggle, `v` is selected exactly when it was not before; nothing else changes. */
  lemma ToggleMembership(selected: seq<string>, v: string)
    ensures v in Toggle(selected, v) <==> v !in selected
    ensures forall y :: y != v ==> (y in Toggle(selected, v) <==> y in selected)
  {
  }

  /** Removing keeps the relative order of what stays, so distinct lists stay distinct. */
  lemma {:induction false} RemoveKeepsDistinct(selected: seq<string>, x: string)
    requires Distinct(selected)
    ensures Distinct(Remove(selected, x))
  {
    if selected != [] {
      assert Distinct(selected[1..]) by {
        forall i, j | 0 <= i < j < |selected| - 1 ensures selected[1..][i] != selected[1..][j] {
          assert selected[1..][i] == selected[i + 1] && selected[1..][j] == selected[j + 1];
        }
      }
      RemoveKeepsDistinct(selected[1..], x);
      var rest := Remove(selected[1..], x);
      if selected[0] != x {
        assert selected[0] !in selected[1..] by {
          forall j | 0 <= j < |selected| - 1 ensures selected[1..][j] != selected[0] {
            assert selected[1..][j] == selected[j + 1];
          }
        }
        var r := [selected[0]] + rest;
        forall i, j | 0 <= i < j < |r| ensures r[i] != r[j] {
          if i == 0 {
            assert r[j] == rest[j - 1];
          } else {
            assert r[i] == rest[i - 1] && r[j] == rest[j - 1];
          }
        }
      }
    }
  }

  /** A toggle never introduces a duplicate. */
  lemma ToggleKeepsDistinct(selected: seq<string>, v: string)
    requires Distinct(selected)
    ensures Distinct(Toggle(selected, v))
  {
    if v in selected {
      RemoveKeepsDistinct(selected, v);
    }
  }

  /** Removing a value that is not there changes nothing. */
  lemma {:induction false} RemoveAbsent(selected: seq<string>, x: string)
    requires x !in selected
    ensures Remove(selected, x) == selected
  {
    if selected != [] {
      assert x !in selected[1..];
      RemoveAbsent(selected[1..], x);
      assert selected == [selected[0]] + selected[1..];
    }
  }

  /** Removing a value just appended gives back the list before the append. */
  lemma {:induction false} RemoveSnoc(selected: seq<string>, v: string)
    requires v !in selected
    ensures Remove(selected + [v], v) == selected
  {
    if selected == [] {
      assert [v][1..] == [];
    } else {
      assert (selected + [v])[1..] == selected[1..] + [v];
      assert v !in selected[1..];
      RemoveSnoc(selected[1..], v);
      assert selected == [selected[0]] + selected[1..];
    }
  }

  /** Toggling an unselected value twice restores the list exactly. */
  lemma ToggleTwiceAbsent(selected: seq<string>, v: string)
    requires v !in selected
    ensures Toggle(Toggle(selected, v), v) == selected
  {
    RemoveSnoc(selected, v);
  }

  /**
   * Toggling a selected value twice restores the set of selected values; on a
   * list without duplicates the value moves to the end and the multiset is kept.
   */
  lemma ToggleTwice(selected: seq<string>, v: string)
    ensures forall y :: y in Toggle(Toggle(selected, v), v) <==> y in selected
    ensures Distinct(selected) ==> multiset(Toggle(Toggle(selected, v), v)) == multiset(selected)
  {
    if v !in selected {
      ToggleTwiceAbsent(selected, v);
    } else {
      var once := Remove(selected, v);
      assert Toggle(Toggle(selected, v), v) == once + [v];
      if Distinct(selected) {
        DistinctCountsOne(selected, v);
        assert multiset(once + [v]) == multiset(once) + multiset{v};
      }
    }
  }

  /** In a list without duplicates, a present value occurs exactly once. */
  lemma {:induction false} DistinctCountsOne(s: seq<string>, v: string)
    requires Distinct(s) && v in s
    ensures multiset(s)[v] == 1
  {
    assert s == [s[0]] + s[1..];
    assert Distinct(s[1..]) by {
      forall i, j | 0 <= i < j < |s| - 1 ensures s[1..][i] != s[1..][j] {
        assert s[1..][i] == s[i + 1] && s[1..][j] == s[j + 1];
      }
    }
    assert s[0] !in s[1..] by {
      forall j | 0 <= j < |s| - 1 ensures s[1..][j] != s[0] {
        assert s[1..][j] == s[j + 1];
      }
    }
    if s[0] == v {
      assert multiset(s[1..])[v] == 0;
    } else {
      DistinctCountsOne(s[1..], v);
    }
  }

  // ---------------------------------------------------------------------------
  // Input handlers (renderInput)

  /** The ten buttons of the rating input. */
  const RatingChoices: seq<int> := [1, 2, 3, 4, 5, 6, 7, 8, 9, 10]

  lemma RatingChoicesRange()
    ensures forall n :: n in RatingChoices <==> 1 <= n <= 10
  {
  }

  /** One user action on the input of the current question. */
  datatype InputEvent =
    | ChooseOption(value: string)   // a select button
    | ToggleOption(value: string)   // a multi-select button
    | Rate(n: int)                  // a rating button
    | Type(text: string)            // the text input or textarea, its whole new content

  /** The input rendered for `q` can produce `ev`. */
  predicate EventFits(q: Question, ev: InputEvent) {
    match ev
    case ChooseOption(v) => q.kind == Select && IsOptionValue(q, v)
    case ToggleOption(v) => q.kind == MultiSelect && IsOptionValue(q, v)
    case Rate(n) => q.kind == Rating && n in RatingChoices
    case Type(_) => q.kind == Text || q.kind == Textarea
  }

  /** `currentAnswer || []` as the multi-select receives it. */
  function Selection(current: Option<Answer>): seq<string> {
    if current.Some? && current.value.ListAnswer? then current.value.items else []
  }

  /** The value the handler passes to `setAnswer`. */
  function NewValue(current: Option<Answer>, ev: InputEvent): Answer {
    match ev
    case ChooseOption(v) => TextAnswer(v)
    case ToggleOption(v) => ListAnswer(Toggle(Selection(current), v))
    case Rate(n) => NumberAnswer(n)
    case Type(t) => TextAnswer(t)
  }

  /** The shape of answer each kind of input produces. */
  predicate AnswerFits(q: Question, a: Answer) {
    match q.kind
    case Select => a.TextAnswer? && IsOptionValue(q, a.text)
    case MultiSelect =>
      a.ListAnswer? && Distinct(a.items) && forall i :: 0 <= i < |a.items| ==> IsOptionValue(q, a.items[i])
    case Rating => a.NumberAnswer? && 1 <= a.n <= 10
    case Text => a.TextAnswer?
    case Textarea => a.TextAnswer?
  }

  /**
   * Every handler stores an answer of its question's shape: an option value, a
   * duplicate-free list of option values, a rating 1..10, or the typed text
   * exactly as typed (white space is trimmed only by the gate).
   */
  lemma NewValueFits(q: Question, current: Option<Answer>, ev: InputEvent)
    requires EventFits(q, ev)
    requires current.Some? ==> AnswerFits(q, current.value)
    ensures AnswerFits(q, NewValue(current, ev))
    ensures ev.Type? ==> NewValue(current, ev) == TextAnswer(ev.text)
  {
    if ev.ToggleOption? {
      var sel := Selection(current);
      assert Distinct(sel);
      ToggleKeepsDistinct(sel, ev.value);
      ToggleMembership(sel, ev.value);
      var r := Toggle(sel, ev.value);
      forall i | 0 <= i < |r| ensures IsOptionValue(q, r[i]) {
        if r[i] != ev.value {
          assert r[i] in sel;
          var k :| 0 <= k < |sel| && sel[k] == r[i];
        }
      }
    } else if ev.Rate? {
      RatingChoicesRange();
    }
  }

  // ---------------------------------------------------------------------------
  // The component state

  /** `id` is the id of some question of the catalog. */
  predicate IsId(catalog: seq<Question>, id: string) {
    exists i :: 0 <= i < |catalog| && catalog[i].id == id
  }

  class Questionnaire {
    const catalog: seq<Question>
    var currentIndex: nat
    var answers: map<string, Answer>

    /** The index stays on a question, and every stored key is a question id. */
    ghost predicate Valid()
      reads this
    {
      && 0 < |catalog|
      && currentIndex < |catalog|
      && DistinctIds(catalog)
      && forall k :: k in answers ==> IsId(catalog, k)
    }

    /** Every stored answer has the shape its question's input produces. */
    ghost predicate WellTyped()
      reads this
    {
      forall i :: 0 <= i < |catalog| && catalog[i].id in answers ==> AnswerFits(catalog[i], answers[catalog[i].id])
    }

    /** The component mounts on the first question with no answers. */
    constructor ()
      ensures Valid() && WellTyped()
      ensures catalog == Questions && currentIndex == 0 && answers == map[]
    {
      catalog := Questions;
      currentIndex := 0;
      answers := map[];
      CatalogIdsDistinct();
    }

    function Current(): Question
      reads this
      requires Valid()
    {
      catalog[currentIndex]
    }

    function CurrentAnswer(): Option<Answer>
      reads this
      requires Valid()
    {
      var id := Current().id;
      if id in answers then Some(answers[id]) else None
    }

    /** The Next button is disabled exactly when the gate fails. */
    predicate NextDisabled()
      reads this
      requires Valid()
    {
      !Answered(Current(), CurrentAnswer())
    }

    /** The Back button is disabled on the first question. */
    predicate BackDisabled()
      reads this
    {
      currentIndex == 0
    }

    /** `setAnswer`: overwrite the entry of the current question, and nothing else. */
    method SetAnswer(value: Answer)
      requires Valid()
      modifies this
      ensures Valid()
      ensures currentIndex == old(currentIndex)
      ensures answers == old(answers)[old(Current()).id := value]
      ensures forall k :: k != Current().id ==> (k in answers <==> k in old(answers))
      ensures forall k :: k != Current().id && k in answers ==> answers[k] == old(answers)[k]
    {
      answers := answers[Current().id := value];
    }

    /** A user action on the rendered input: the handler's value goes through `setAnswer`. */
    method Input(ev: InputEvent)
      requires Valid() && EventFits(Current(), ev)
      modifies this
      ensures Valid()
      ensures currentIndex == old(currentIndex)
      ensures answers == old(answers)[old(Current()).id := NewValue(old(CurrentAnswer()), ev)]
      ensures old(WellTyped()) ==> WellTyped()
    {
      ghost var wasTyped := WellTyped();
      var q := Current();
      var value := NewValue(CurrentAnswer(), ev);
      if wasTyped {
        if q.id in answers {
          assert AnswerFits(catalog[currentIndex], answers[catalog[currentIndex].id]);
        }
        NewValueFits(q, CurrentAnswer(), ev);
      }
      SetAnswer(value);
      if wasTyped {
        forall i | 0 <= i < |catalog| && catalog[i].id in answers
          ensures AnswerFits(catalog[i], answers[catalog[i].id])
        {
          if i != currentIndex {
            assert catalog[i].id != q.id;
          }
        }
      }
    }

    /**
     * `next`: move to the following question, or on the last one stay put and
     * hand the answers to the caller (`onComplete`).
     */
    method Next() returns (completed: Option<map<string, Answer>>)
      requires Valid()
      modifies this
      ensures Valid() && answers == old(answers)
      ensures old(currentIndex) < |catalog| - 1 ==> currentIndex == old(currentIndex) + 1 && completed == None
      ensures old(currentIndex) == |catalog| - 1 ==> currentIndex == old(currentIndex) && completed == Some(answers)
    {
      if currentIndex < |catalog| - 1 {
        currentIndex := currentIndex + 1;
        completed := None;
      } else {
        completed := Some(answers);
      }
    }

    /** A click on Next: ignored while the button is disabled. */
    method ClickNext() returns (completed: Option<map<string, Answer>>)
      requires Valid()
      modifies this
      ensures Valid() && answers == old(answers)
      ensures old(NextDisabled()) ==> currentIndex == old(currentIndex) && completed == None
      ensures !old(NextDisabled()) && old(currentIndex) < |catalog| - 1 ==>
        currentIndex == old(currentIndex) + 1 && completed == None
      ensures !old(NextDisabled()) && old(currentIndex) == |catalog| - 1 ==>
        currentIndex == old(currentIndex) && completed == Some(answers)
    {
      if NextDisabled() {
        completed := None;
      } else {
        completed := Next();
      }
    }

    /** `back`: move to the previous question unless on the first. */
    method Back()
      requires Valid()
      modifies this
      ensures Valid() && answers == old(answers)
      ensures currentIndex == if old(currentIndex) > 0 then old(currentIndex) - 1 else 0
      ensures old(BackDisabled()) <==> currentIndex == old(currentIndex)
    {
      if currentIndex > 0 {
        currentIndex := currentIndex - 1;
      }
    }
  }
}
