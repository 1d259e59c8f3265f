/**
 * The driver's "CV" helper: a class whose `add_values` fills a value-to-label
 * table and a value-to-lsb table from a sequence of
 * (name, value, label, lsb) tuples and binds each name to its value as a
 * class attribute; `is_valid` is membership in the label table.
 */
module ConstantTables {

  datatype Option<T> = None | Some(value: T)

  /** One `(name, value, string, lsb)` tuple given to `add_values`. */
  datatype Entry = Entry(name: string, value: int, display: string, lsb: Option<int>)

  /** The label table that a loop over `ts` leaves behind: later tuples overwrite earlier ones. */
  function Labels(ts: seq<Entry>): (m: map<int, string>)
    ensures m.Keys == set i | 0 <= i < |ts| :: ts[i].value
  {
    if ts == [] then map[]
    else Labels(ts[..|ts| - 1])[ts[|ts| - 1].value := ts[|ts| - 1].display]
  }

  /** The lsb table that a loop over `ts` leaves behind. */
  function Lsbs(ts: seq<Entry>): (m: map<int, Option<int>>)
    ensures m.Keys == set i | 0 <= i < |ts| :: ts[i].value
  {
    if ts == [] then map[]
    else Lsbs(ts[..|ts| - 1])[ts[|ts| - 1].value := ts[|ts| - 1].lsb]
  }

  /** The attributes after a loop over `ts` binds each name to its value on
      top of the attributes `base` the class already had. */
  function Bind(base: map<string, int>, ts: seq<Entry>): (m: map<string, int>)
    ensures m.Keys == base.Keys + set i | 0 <= i < |ts| :: ts[i].name
  {
    if ts == [] then base
    else Bind(base, ts[..|ts| - 1])[ts[|ts| - 1].name := ts[|ts| - 1].value]
  }

  /** The label of a value is that of the last tuple carrying the value. */
  lemma {:induction false} LabelsLast(ts: seq<Entry>, i: nat)
    requires i < |ts|
    requires forall j | i < j < |ts| :: ts[j].value != ts[i].value
    ensures ts[i].value in Labels(ts) && Labels(ts)[ts[i].value] == ts[i].display
    decreases |ts|
  {
    if i < |ts| - 1 {
      LabelsLast(ts[..|ts| - 1], i);
    }
  }

  /** The lsb of a value is that of the last tuple carrying the value. */
  lemma {:induction false} LsbsLast(ts: seq<Entry>, i: nat)
    requires i < |ts|
    requires forall j | i < j < |ts| :: ts[j].value != ts[i].value
    ensures ts[i].value in Lsbs(ts) && Lsbs(ts)[ts[i].value] == ts[i].lsb
    decreases |ts|
  {
    if i < |ts| - 1 {
      LsbsLast(ts[..|ts| - 1], i);
    }
  }

  /** A name is bound to the value of the last tuple carrying the name. */
  lemma {:induction false} BindLast(base: map<string, int>, ts: seq<Entry>, i: nat)
    requires i < |ts|
    requires forall j | i < j < |ts| :: ts[j].name != ts[i].name
    ensures ts[i].name in Bind(base, ts) && Bind(base, ts)[ts[i].name] == ts[i].value
    decreases |ts|
  {
    if i < |ts| - 1 {
      BindLast(base, ts[..|ts| - 1], i);
    }
  }

  /** With pairwise distinct names, every name is bound to its own tuple's value. */
  lemma BindDistinct(base: map<string, int>, ts: seq<Entry>)
    requires forall i, j | 0 <= i < j < |ts| :: ts[i].name != ts[j].name
    ensures forall i | 0 <= i < |ts| :: ts[i].name in Bind(base, ts) && Bind(base, ts)[ts[i].name] == ts[i].value
  {
    forall i | 0 <= i < |ts|
      ensures ts[i].name in Bind(base, ts) && Bind(base, ts)[ts[i].name] == ts[i].value
    {
      BindLast(base, ts, i);
    }
  }

  /** An attribute that no tuple names keeps the value it had. */
  lemma {:induction false} BindKeeps(base: map<string, int>, ts: seq<Entry>, name: string)
    requires name in base
    requires forall j | 0 <= j < |ts| :: ts[j].name != name
    ensures name in Bind(base, ts) && Bind(base, ts)[name] == base[name]
    decreases |ts|
  {
    if ts != [] {
      BindKeeps(base, ts[..|ts| - 1], name);
    }
  }

  /** The two class attributes that hold the tables: a tuple binding either
      name would replace a table by a number. */
  predicate TableName(name: string) {
    name == "string" || name == "lsb"
  }

  /**
   * One constant class deriving from `CV`. `labels` is the class's `string`
   * dictionary, `lsb` its `lsb` dictionary and `attrs` the class attributes
   * that `add_values` binds with `setattr`. A class that `add_values` has not
   * yet been called on has no `string` attribute at all; `defined` records
   * whether the tables exist.
   */
  class CV {
    var defined: bool
    var labels: map<int, string>
    var lsb: map<int, Option<int>>
    var attrs: map<string, int>

    /** A freshly declared subclass: no tables yet and no names bound. */
    constructor ()
      ensures !defined && attrs == map[]
    {
      defined := false;
      labels, lsb, attrs := map[], map[], map[];
    }

    /** Whether `value` is a member of the table; only callable once the
        table exists, since before that the lookup of `string` fails. */
    predicate IsValid(value: int)
      requires defined
      reads this
    {
      value in labels
    }

    /** Replaces both tables by those of `valueTuples` and binds every name in
        it. A tuple named `string` or `lsb` would rebind a table to a number
        and make the next table store fail, so the source admits none. */
    method AddValues(valueTuples: seq<Entry>)
      requires forall i | 0 <= i < |valueTuples| :: !TableName(valueTuples[i].name)
      modifies this
      ensures defined
      ensures labels == Labels(valueTuples) && lsb == Lsbs(valueTuples)
      ensures attrs == Bind(old(attrs), valueTuples)
      ensures forall v :: IsValid(v) <==> exists i | 0 <= i < |valueTuples| :: valueTuples[i].value == v
    {
      labels, lsb := map[], map[];
      defined := true;
      var i := 0;
      while i < |valueTuples|
        invariant 0 <= i <= |valueTuples|
        invariant defined
        invariant labels == Labels(valueTuples[..i]) && lsb == Lsbs(valueTuples[..i])
        invariant attrs == Bind(old(attrs), valueTuples[..i])
      {
        var t := valueTuples[i];
        ghost var prefix := valueTuples[..i + 1];
        assert prefix[..i] == valueTuples[..i] && prefix[i] == t;
        attrs := attrs[t.name := t.value];
        labels := labels[t.value := t.display];
        lsb := lsb[t.value := t.lsb];
        i := i + 1;
      }
      assert valueTuples[..i] == valueTuples;
      forall v
        ensures IsValid(v) <==> exists i | 0 <= i < |valueTuples| :: valueTuples[i].value == v
      {
        assert IsValid(v) <==> v in set i | 0 <= i < |valueTuples| :: valueTuples[i].value;
      }
    }
  }
}
