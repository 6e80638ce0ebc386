/**
 * Grouping of the chat sidebar's conversations by date
 * (dashboard/src/components/Sidebar.jsx, `groupByDate`).
 *
 * Each conversation is labelled Today, Yesterday or Older from its
 * `updated_at` time (or `created_at` when that is falsy), and pushed onto
 * the list of its label in a plain object. The object's keys are created
 * on first use, and the sidebar lists them in that order; the model keeps
 * the object as an association list in key-creation order. Local
 * midnight of the current day is a parameter (`today`, in milliseconds).
 */
module Sidebar {
  import opened Base

  const DAY_MS: int := 86400000

  /**
   * A timestamp field as the browser sees it: absent, null, or a string.
   * `parsed` is what `Date.parse` makes of the string (None for an
   * invalid date).
   */
  datatype Stamp = Undefined | Null | Text(text: string, parsed: Option<int>)

  datatype Conversation = Conversation(id: string, title: string, updatedAt: Stamp, createdAt: Stamp)

  datatype Label = Today | Yesterday | Older

  /** The conversations of one key of the `groups` object. */
  datatype Group = Group(key: Label, items: seq<Conversation>)

  /** JavaScript falsiness of a timestamp field. */
  predicate Falsy(s: Stamp) {
    s.Undefined? || s.Null? || (s.Text? && s.text == "")
  }

  /** `c.updated_at || c.created_at`. */
  function StampOf(c: Conversation): Stamp {
    if Falsy(c.updatedAt) then c.createdAt else c.updatedAt
  }

  /** `new Date(s).getTime()`: null is the epoch, anything unparsable is NaN (None). */
  function Millis(s: Stamp): Option<int> {
    match s
    case Undefined => None
    case Null => Some(0)
    case Text(t, p) => if t == "" then None else p
  }

  /** The label: comparisons with an invalid date are false, so it falls through to Older. */
  function LabelOf(c: Conversation, today: int): (l: Label)
    ensures l == Today <==> Millis(StampOf(c)).Some? && Millis(StampOf(c)).value >= today
    ensures l == Yesterday <==> Millis(StampOf(c)).Some? && today - DAY_MS <= Millis(StampOf(c)).value < today
    ensures l == Older <==> Millis(StampOf(c)).None? || Millis(StampOf(c)).value < today - DAY_MS
  {
    var d := Millis(StampOf(c));
    if d.Some? && d.value >= today then Today
    else if d.Some? && d.value >= today - DAY_MS then Yesterday
    else Older
  }

  /** The conversations with label `l`, in input order. */
  function Filter(convs: seq<Conversation>, l: Label, today: int): (r: seq<Conversation>)
    ensures |r| <= |convs|
  {
    if convs == [] then []
    else
      var last := convs[|convs| - 1];
      Filter(convs[..|convs| - 1], l, today) + (if LabelOf(last, today) == l then [last] else [])
  }

  /** Position of the key `l` in the groups, or |gs| when it is not yet a key. */
  function Find(gs: seq<Group>, l: Label): (j: nat)
    ensures j <= |gs|
    ensures j < |gs| ==> gs[j].key == l
    ensures forall k :: 0 <= k < j ==> gs[k].key != l
  {
    if gs == [] then 0
    else if gs[0].key == l then 0
    else 1 + Find(gs[1..], l)
  }

  /** `if (!groups[l]) groups[l] = []; groups[l].push(c)`. */
  function Push(gs: seq<Group>, l: Label, c: Conversation): seq<Group> {
    var j := Find(gs, l);
    if j == |gs| then gs + [Group(l, [c])]
    else gs[j := Group(l, gs[j].items + [c])]
  }

  /** The object after the loop has seen `convs`. */
  function GroupsOf(convs: seq<Conversation>, today: int): seq<Group> {
    if convs == [] then []
    else
      var last := convs[|convs| - 1];
      Push(GroupsOf(convs[..|convs| - 1], today), LabelOf(last, today), last)
  }

  /** `groupByDate` as the source runs it. */
  method GroupByDate(convs: seq<Conversation>, today: int) returns (groups: seq<Group>)
    ensures groups == GroupsOf(convs, today)
  {
    groups := [];
    var i := 0;
    while i < |convs|
      invariant 0 <= i <= |convs|
      invariant groups == GroupsOf(convs[..i], today)
    {
      assert convs[..i + 1][..i] == convs[..i];
      var c := convs[i];
      var l := LabelOf(c, today);
      var j := Find(groups, l);
      if j == |groups| {
        groups := groups + [Group(l, [c])];
      } else {
        groups := groups[j := Group(l, groups[j].items + [c])];
      }
      i := i + 1;
    }
    assert convs[..i] == convs;
  }

  // ---------------------------------------------------------------------
  // What the grouping guarantees
  // ---------------------------------------------------------------------

  /**
   * The groups are exactly the labels that occur, each once, each holding
   * precisely the conversations with that label in input order (so none is
   * empty).
   */
  predicate Grouped(gs: seq<Group>, convs: seq<Conversation>, today: int) {
    && (forall j, k :: 0 <= j < k < |gs| ==> gs[j].key != gs[k].key)
    && (forall j :: 0 <= j < |gs| ==> gs[j].items == Filter(convs, gs[j].key, today) && gs[j].items != [])
    && (forall l: Label :: Find(gs, l) < |gs| <==> Filter(convs, l, today) != [])
  }

  lemma {:induction false} GroupByDateGroups(convs: seq<Conversation>, today: int)
    ensures Grouped(GroupsOf(convs, today), convs, today)
  {
    if convs != [] {
      var init := convs[..|convs| - 1];
      var c := convs[|convs| - 1];
      GroupByDateGroups(init, today);
      assert convs == init + [c];
      PushGrouped(GroupsOf(init, today), init, c, today);
    }
  }

  /** Filtering the input with one more conversation adds it to its own label only. */
  lemma {:induction false} FilterSnoc(convs: seq<Conversation>, c: Conversation, m: Label, today: int)
    ensures Filter(convs + [c], m, today) == Filter(convs, m, today) + (if LabelOf(c, today) == m then [c] else [])
  {
    assert (convs + [c])[..|convs|] == convs;
  }

  /** One push keeps the groups exact for the input extended by the pushed conversation. */
  lemma {:induction false} PushGrouped(gs: seq<Group>, convs: seq<Conversation>, c: Conversation, today: int)
    requires Grouped(gs, convs, today)
    ensures Grouped(Push(gs, LabelOf(c, today), c), convs + [c], today)
  {
    forall m: Label ensures Filter(convs + [c], m, today) == Filter(convs, m, today) + (if LabelOf(c, today) == m then [c] else []) {
      FilterSnoc(convs, c, m, today);
    }
    if Find(gs, LabelOf(c, today)) == |gs| {
      PushNewKey(gs, convs, c, today);
    } else {
      PushOldKey(gs, convs, c, today);
    }
  }

  /** A conversation whose label is not yet a key opens a new group at the end. */
  lemma {:induction false} PushNewKey(gs: seq<Group>, convs: seq<Conversation>, c: Conversation, today: int)
    requires Grouped(gs, convs, today) && Find(gs, LabelOf(c, today)) == |gs|
    requires forall m: Label :: Filter(convs + [c], m, today) == Filter(convs, m, today) + (if LabelOf(c, today) == m then [c] else [])
    ensures Grouped(Push(gs, LabelOf(c, today), c), convs + [c], today)
  {
    var l := LabelOf(c, today);
    var gs' := Push(gs, l, c);
    var convs' := convs + [c];
    assert gs' == gs + [Group(l, [c])];
    assert Filter(convs, l, today) == [];
    forall j, k | 0 <= j < k < |gs'| ensures gs'[j].key != gs'[k].key {
      if k == |gs| {
        assert gs'[j].key == gs[j].key != l;
      }
    }
    forall j | 0 <= j < |gs'|
      ensures gs'[j].items == Filter(convs', gs'[j].key, today) && gs'[j].items != []
    {
      if j < |gs| {
        assert gs'[j] == gs[j] && gs[j].key != l;
      }
    }
    forall m: Label ensures Find(gs', m) < |gs'| <==> Filter(convs', m, today) != [] {
      FindAppend(gs, Group(l, [c]), m);
    }
  }

  /** A conversation whose label is already a key joins the end of that group. */
  lemma {:induction false} PushOldKey(gs: seq<Group>, convs: seq<Conversation>, c: Conversation, today: int)
    requires Grouped(gs, convs, today) && Find(gs, LabelOf(c, today)) < |gs|
    requires forall m: Label :: Filter(convs + [c], m, today) == Filter(convs, m, today) + (if LabelOf(c, today) == m then [c] else [])
    ensures Grouped(Push(gs, LabelOf(c, today), c), convs + [c], today)
  {
    var l := LabelOf(c, today);
    var j := Find(gs, l);
    var gs' := Push(gs, l, c);
    forall m: Label ensures Find(gs', m) < |gs'| <==> Filter(convs + [c], m, today) != [] {
      FindUpdate(gs, j, Group(l, gs[j].items + [c]), m);
    }
  }

  lemma {:induction false} FindAppend(gs: seq<Group>, g: Group, l: Label)
    ensures Find(gs + [g], l) == if Find(gs, l) < |gs| then Find(gs, l) else if g.key == l then |gs| else |gs| + 1
  {
    if gs != [] {
      assert (gs + [g])[1..] == gs[1..] + [g];
      FindAppend(gs[1..], g, l);
    }
  }

  lemma {:induction false} FindUpdate(gs: seq<Group>, j: nat, g: Group, l: Label)
    requires j < |gs| && g.key == gs[j].key
    ensures Find(gs[j := g], l) == Find(gs, l)
  {
    var gs' := gs[j := g];
    assert forall k :: 0 <= k < |gs| ==> gs'[k].key == gs[k].key;
  }

  /** Total number of conversations over all groups. */
  function Total(gs: seq<Group>): nat {
    if gs == [] then 0 else Total(gs[..|gs| - 1]) + |gs[|gs| - 1].items|
  }

  lemma {:induction false} TotalAppend(a: seq<Group>, b: seq<Group>)
    ensures Total(a + b) == Total(a) + Total(b)
    decreases |b|
  {
    if b == [] {
      assert a + b == a;
    } else {
      var ab := a + b;
      assert ab[..|ab| - 1] == a + b[..|b| - 1];
      TotalAppend(a, b[..|b| - 1]);
    }
  }

  lemma {:induction false} TotalUpdate(gs: seq<Group>, j: nat, g: Group)
    requires j < |gs|
    ensures Total(gs[j := g]) == Total(gs) - |gs[j].items| + |g.items|
  {
    var gs' := gs[j := g];
    assert gs == gs[..j] + [gs[j]] + gs[j + 1..];
    assert gs' == gs[..j] + [g] + gs[j + 1..];
    TotalAppend(gs[..j] + [gs[j]], gs[j + 1..]);
    TotalAppend(gs[..j], [gs[j]]);
    TotalAppend(gs[..j] + [g], gs[j + 1..]);
    TotalAppend(gs[..j], [g]);
  }

  /** Every conversation lands in exactly one group: the group sizes add up to the input length. */
  lemma {:induction false} GroupByDateTotal(convs: seq<Conversation>, today: int)
    ensures Total(GroupsOf(convs, today)) == |convs|
  {
    if convs != [] {
      var init := convs[..|convs| - 1];
      var c := convs[|convs| - 1];
      var gs := GroupsOf(init, today);
      GroupByDateTotal(init, today);
      var j := Find(gs, LabelOf(c, today));
      if j == |gs| {
        TotalAppend(gs, [Group(LabelOf(c, today), [c])]);
      } else {
        TotalUpdate(gs, j, Group(LabelOf(c, today), gs[j].items + [c]));
      }
    }
  }
}
