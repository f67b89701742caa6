/** The column walk and the data walk agree, and read back what the nested encoding wrote. */
module LayoutTheorems {
  import opened Bytes
  import opened Outcomes
  import FormatText
  import opened Layout

  // ---- the effect of the flat pass ----

  /** The leaves found at the slots. */
  function SlotValues(slots: seq<Slot>, message: seq<byte>, pos: int): Result<seq<Value>> {
    if slots == [] then Ok([])
    else if slots[0].Skip? then SlotValues(slots[1..], message, pos + slots[0].bytes)
    else if pos < 0 || pos + Width(slots[0].type_) > |message| then Err(OutOfBounds)
    else
      var n := Width(slots[0].type_);
      var rest :- SlotValues(slots[1..], message, pos + n);
      Ok([Value(slots[0].type_, FromLe(message[pos..pos + n]))] + rest)
  }

  /** `data` with one value in each of the columns from `index` on. */
  function Overwrite(data: seq<Column>, index: nat, values: seq<Value>): (r: seq<Column>)
    requires index + |values| <= |data|
    ensures |r| == |data|
  {
    seq(|data|, k requires 0 <= k < |data| =>
      if index <= k < index + |values| then data[k].(values := [values[k - index]]) else data[k])
  }

  lemma {:induction false} SlotValuesCount(slots: seq<Slot>, message: seq<byte>, pos: int)
    requires SlotValues(slots, message, pos).Ok?
    ensures |SlotValues(slots, message, pos).value| == Reads(slots)
  {
    if slots != [] { SlotValuesCount(slots[1..], message, pos + SlotSize(slots[0])); }
  }

  lemma OverwriteStep(data: seq<Column>, index: nat, value: Value, rest: seq<Value>)
    requires index + 1 + |rest| <= |data|
    ensures Overwrite(data[index := data[index].(values := [value])], index + 1, rest) ==
            Overwrite(data, index, [value] + rest)
  {
  }

  /** The flat pass either leaves its bounds or writes exactly the leaves, one to a column. */
  lemma {:induction false} FillSlotsEffect(slots: seq<Slot>, message: seq<byte>, w: Walk)
    requires w.index <= |w.data|
    ensures FillSlots(slots, message, w) ==
      var values := SlotValues(slots, message, w.pos);
      if values.Ok? && w.index + |values.value| <= |w.data| then
        Ok(Walk(Overwrite(w.data, w.index, values.value), w.pos + Size(slots), w.index + |values.value|))
      else Err(OutOfBounds)
    decreases |slots|
  {
    var values := SlotValues(slots, message, w.pos);
    if slots == [] {
      assert Overwrite(w.data, w.index, []) == w.data;
    } else {
      var v := FillSlot(slots[0], message, w);
      if v.Ok? {
        FillSlotsEffect(slots[1..], message, v.value);
        var rest := SlotValues(slots[1..], message, v.value.pos);
        if slots[0].Read? && rest.Ok? && w.index + 1 + |rest.value| <= |w.data| {
          OverwriteStep(w.data, w.index, values.value[0], rest.value);
          assert values.value == [values.value[0]] + rest.value;
        }
      }
    }
  }

  // ---- acyclic formats ----

  /** `f` nests only formats ranked below `bound`, and its size fits the suffix buffer. */
  predicate FieldRanked(fm: Formats, rank: map<string, nat>, f: FormatText.Field, bound: nat) {
    if IsPadding(f) then f.arraySize >= 0
    else f.arraySize <= MAX_INDEX &&
         (f.type_ == FormatText.OTHER ==> f.other in fm && f.other in rank && rank[f.other] < bound)
  }

  predicate FieldsRanked(fm: Formats, rank: map<string, nat>, fields: seq<FormatText.Field>, bound: nat) {
    forall i :: 0 <= i < |fields| ==> FieldRanked(fm, rank, fields[i], bound)
  }

  /** Nested formats exist and the nesting has no cycle. */
  predicate Ranked(fm: Formats, rank: map<string, nat>) {
    forall n :: n in fm ==> n in rank && FieldsRanked(fm, rank, fm[n].fields, rank[n])
  }

  predicate OpenBelow(fm: Formats, rank: map<string, nat>, open: set<string>, bound: nat)
    requires Ranked(fm, rank)
  {
    forall n :: n in fm && rank[n] < bound ==> n in open
  }

  /** No slot steps backwards. */
  predicate Forward(slots: seq<Slot>) {
    forall i :: 0 <= i < |slots| ==> SlotSize(slots[i]) >= 0
  }

  lemma ForwardAppend(a: seq<Slot>, b: seq<Slot>)
    requires Forward(a) && Forward(b)
    ensures Forward(a + b)
  {
  }

  lemma {:induction false} NamesDefined(fm: Formats, rank: map<string, nat>, open: set<string>,
                                        fields: seq<FormatText.Field>, prefix: string, bound: nat)
    requires Ranked(fm, rank) && FieldsRanked(fm, rank, fields, bound) && OpenBelow(fm, rank, open, bound)
    ensures ColumnNames(fm, open, fields, prefix).Ok?
    ensures Flatten(fm, open, fields).Ok? && Forward(Flatten(fm, open, fields).value)
    decreases open, 2, |fields|
  {
    if fields != [] {
      assert FieldRanked(fm, rank, fields[0], bound);
      if !IsPadding(fields[0]) {
        ArrayNamesDefined(fm, rank, open, fields[0], 0, prefix + "/" + fields[0].name, bound);
      }
      NamesDefined(fm, rank, open, fields[1..], prefix, bound);
      var first, rest := FlattenField(fm, open, fields[0]).value, Flatten(fm, open, fields[1..]).value;
      ForwardAppend(first, rest);
      assert Flatten(fm, open, fields) == Ok(first + rest);
    }
  }

  lemma {:induction false} ArrayNamesDefined(fm: Formats, rank: map<string, nat>, open: set<string>,
                                             f: FormatText.Field, i: nat, base: string, bound: nat)
    requires Ranked(fm, rank) && FieldRanked(fm, rank, f, bound) && OpenBelow(fm, rank, open, bound) && !IsPadding(f)
    ensures ArrayNames(fm, open, f, i, base).Ok?
    ensures FlattenArray(fm, open, f, i).Ok? && Forward(FlattenArray(fm, open, f, i).value)
    decreases open, 1, f.arraySize - i
  {
    if i < f.arraySize {
      ElementNamesDefined(fm, rank, open, f, base + ArraySuffix(f, i), bound);
      ArrayNamesDefined(fm, rank, open, f, i + 1, base, bound);
      var first, rest := FlattenElement(fm, open, f).value, FlattenArray(fm, open, f, i + 1).value;
      ForwardAppend(first, rest);
      assert FlattenArray(fm, open, f, i) == Ok(first + rest);
    }
  }

  lemma {:induction false} ElementNamesDefined(fm: Formats, rank: map<string, nat>, open: set<string>,
                                               f: FormatText.Field, name: string, bound: nat)
    requires Ranked(fm, rank) && FieldRanked(fm, rank, f, bound) && OpenBelow(fm, rank, open, bound) && !IsPadding(f)
    ensures ElementNames(fm, open, f, name).Ok?
    ensures FlattenElement(fm, open, f).Ok? && Forward(FlattenElement(fm, open, f).value)
    decreases open, 0
  {
    if f.type_ == FormatText.OTHER {
      assert f.other in open;
      NamesDefined(fm, rank, open - {f.other}, fm[f.other].fields, name, rank[f.other]);
    }
  }

  lemma {:induction false} SizeForward(slots: seq<Slot>)
    requires Forward(slots)
    ensures Size(slots) >= 0
  {
    if slots != [] {
      assert Forward(slots[1..]);
      SizeForward(slots[1..]);
    }
  }

  lemma {:induction false} SlotValuesDefined(slots: seq<Slot>, message: seq<byte>, pos: nat)
    requires Forward(slots) && pos + Size(slots) <= |message|
    ensures SlotValues(slots, message, pos).Ok?
  {
    if slots != [] {
      assert Forward(slots[1..]);
      SizeForward(slots[1..]);
      assert SlotSize(slots[0]) >= 0;
      SlotValuesDefined(slots[1..], message, pos + SlotSize(slots[0]));
    }
  }

  /** For every acyclic format map and every format in it: the data walk writes exactly the columns the
      column walk made, one value each, from column 0 to the last, and stops exactly behind the flattened
      layout; it fails only when a leaf lies outside the message, and never when the message is long enough. */
  lemma WalksAgree(fm: Formats, rank: map<string, nat>, name: string, message: seq<byte>, pos: nat, data: seq<Column>)
    requires Ranked(fm, rank) && name in fm
    requires ColumnNames(fm, fm.Keys, fm[name].fields, "").Ok? ==>
               |data| == |ColumnNames(fm, fm.Keys, fm[name].fields, "").value|
    ensures var names, slots := ColumnNames(fm, fm.Keys, fm[name].fields, ""), Flatten(fm, fm.Keys, fm[name].fields);
      names.Ok? && slots.Ok? &&
      var values := SlotValues(slots.value, message, pos);
      && (pos + Size(slots.value) <= |message| ==> values.Ok?)
      && (values.Ok? ==> |values.value| == |names.value|)
      && FillFields(fm, fm.Keys, fm[name].fields, message, Walk(data, pos, 0)) ==
           if values.Ok? then Ok(Walk(Overwrite(data, 0, values.value), pos + Size(slots.value), |names.value|))
           else Err(OutOfBounds)
  {
    var fields := fm[name].fields;
    NamesDefined(fm, rank, fm.Keys, fields, "", rank[name]);
    NamesFollow(fm, fm.Keys, fields, "");
    var slots := Flatten(fm, fm.Keys, fields).value;
    FillFollows(fm, fm.Keys, fields, message, Walk(data, pos, 0));
    FillSlotsEffect(slots, message, Walk(data, pos, 0));
    if SlotValues(slots, message, pos).Ok? { SlotValuesCount(slots, message, pos); }
    if pos + Size(slots) <= |message| { SlotValuesDefined(slots, message, pos); }
  }
}
