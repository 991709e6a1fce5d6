/** The invocation validator of the keyword surface: the shape checks on the value passed as
    `monorepo_call=...` to `setup()`, and its normalisation into a list of invocations. */
module Validation {
  import opened Outcomes
  import opened Text
  import opened Values

  /** Why a value is turned down: the message the validator returns, or the KeyError that its
      lookup of `"target"` raises when a dictionary has no such key. */
  datatype Rejection = Message(text: string) | MissingKey(key: string)

  /** One invocation: the script to run and the arguments for its entrypoint. */
  datatype Invocation = Invocation(target: string, args: Value)

  const ValidKeys: seq<string> := ["target", "args"]

  predicate IsUnknownKey(key: string)
  {
    key !in ValidKeys
  }

  /** The keys of a dictionary other than `target` and `args`, in key order. */
  function UnknownKeys(v: Value): seq<string>
    requires v.Dict?
  {
    Filter(Keys(v.entries), IsUnknownKey)
  }

  /** The checks on one invocation value, in the order they are made. */
  function ValidateSingle(v: Value): Option<Rejection>
  {
    if !v.Dict? then Some(Message("Value should be a dict"))
    else if UnknownKeys(v) != [] then Some(Message("Unknown params passed: " + Join(UnknownKeys(v), ' ')))
    else match Lookup(v.entries, "target")
      case None => Some(MissingKey("target"))
      case Some(target) =>
        if !target.Str? then Some(Message("\"target\" should be a string"))
        else match Lookup(v.entries, "args")
          case Some(args) => if !args.Dict? then Some(Message("\"args\" should be a dict")) else None
          case None => None
  }

  /** A value passes exactly when it is a dictionary with no key but `target` and `args`,
      whose `target` is a string and whose `args`, if present, is a dictionary. */
  lemma ValidateSingleAccepts(v: Value)
    ensures ValidateSingle(v).None? <==>
      && v.Dict?
      && (forall i :: 0 <= i < |v.entries| ==> v.entries[i].0 == "target" || v.entries[i].0 == "args")
      && Lookup(v.entries, "target").Some? && Lookup(v.entries, "target").value.Str?
      && (Lookup(v.entries, "args").Some? ==> Lookup(v.entries, "args").value.Dict?)
  {
    if v.Dict? {
      var keys := Keys(v.entries);
      if UnknownKeys(v) == [] {
        forall i | 0 <= i < |v.entries| ensures v.entries[i].0 == "target" || v.entries[i].0 == "args" {
          assert keys[i] == v.entries[i].0;
        }
      } else {
        var k := UnknownKeys(v)[0];
        assert k in keys && IsUnknownKey(k);
        var i :| 0 <= i < |keys| && keys[i] == k;
        assert v.entries[i].0 == k;
      }
    }
  }

  /** A dictionary holding a key other than `target` and `args` is turned down before any
      other check, with a message that lists exactly the unknown keys, in key order. */
  lemma UnknownKeysRejected(v: Value, i: nat)
    requires v.Dict? && i < |v.entries| && v.entries[i].0 != "target" && v.entries[i].0 != "args"
    ensures UnknownKeys(v) != []
    ensures ValidateSingle(v) == Some(Message("Unknown params passed: " + Join(UnknownKeys(v), ' ')))
    ensures forall k :: k in UnknownKeys(v) <==> k in Keys(v.entries) && k != "target" && k != "args"
  {
    var keys := Keys(v.entries);
    assert keys[i] == v.entries[i].0;
    assert keys[i] in UnknownKeys(v);
    forall k | k in keys && k != "target" && k != "args" ensures k in UnknownKeys(v) {
      var j :| 0 <= j < |keys| && keys[j] == k;
      assert IsUnknownKey(keys[j]);
    }
    forall k | k in UnknownKeys(v) ensures k in keys && k != "target" && k != "args" {
      var j :| 0 <= j < |UnknownKeys(v)| && UnknownKeys(v)[j] == k;
      assert UnknownKeys(v)[j] in keys && IsUnknownKey(UnknownKeys(v)[j]);
    }
  }

  /** The rejection of the first element that fails, `None` when all pass. */
  function FirstRejection(items: seq<Value>): Option<Rejection>
  {
    if |items| == 0 then None
    else if ValidateSingle(items[0]).Some? then ValidateSingle(items[0])
    else FirstRejection(items[1..])
  }

  /** The validation of the keyword value: a sequence element by element, anything else as a
      single invocation. */
  function Validate(v: Value): Option<Rejection>
  {
    if IsSequence(v) then FirstRejection(Elements(v)) else ValidateSingle(v)
  }

  /** A sequence is turned down with the rejection of its first failing element, and passes
      exactly when every element passes; in particular an empty sequence passes. */
  lemma {:induction false} FirstRejectionIsFirstFailure(items: seq<Value>)
    ensures FirstRejection(items).None? <==> forall i :: 0 <= i < |items| ==> ValidateSingle(items[i]).None?
    ensures FirstRejection(items).Some? ==>
      exists k :: 0 <= k < |items| && FirstRejection(items) == ValidateSingle(items[k]) &&
        forall j :: 0 <= j < k ==> ValidateSingle(items[j]).None?
  {
    if |items| > 0 && ValidateSingle(items[0]).None? {
      FirstRejectionIsFirstFailure(items[1..]);
      if FirstRejection(items).Some? {
        var k :| 0 <= k < |items[1..]| && FirstRejection(items[1..]) == ValidateSingle(items[1..][k]) &&
          forall j :: 0 <= j < k ==> ValidateSingle(items[1..][j]).None?;
        assert items[1..][k] == items[k + 1];
        forall j | 0 <= j < k + 1 ensures ValidateSingle(items[j]).None? {
          if j > 0 {
            assert items[1..][j - 1] == items[j];
          }
        }
      } else {
        forall i | 0 <= i < |items| ensures ValidateSingle(items[i]).None? {
          if i > 0 {
            assert items[1..][i - 1] == items[i];
          }
        }
      }
    }
  }

  /** `_validate_value`: the loop over a sequence stops at the first element that fails. */
  method ValidateValue(v: Value) returns (r: Option<Rejection>)
    ensures r == Validate(v)
  {
    if IsSequence(v) {
      var items := Elements(v);
      var i := 0;
      while i < |items|
        invariant 0 <= i <= |items|
        invariant FirstRejection(items) == FirstRejection(items[i..])
      {
        assert items[i..][1..] == items[i + 1..];
        var result := ValidateSingle(items[i]);
        if result.Some? {
          return result;
        }
        i := i + 1;
      }
      return None;
    }
    return ValidateSingle(v);
  }

  /** `_make_sequence`: a sequence is used as it is, anything else as a one-element list. */
  function MakeSequence(v: Value): seq<Value>
  {
    if IsSequence(v) then Elements(v) else [v]
  }

  /** Every element of a validated keyword value is a valid invocation dictionary, so the
      "not a dict" branch of the dispatch loop is never taken. */
  lemma ValidatedElementsAreDicts(v: Value)
    requires Validate(v).None?
    ensures forall i :: 0 <= i < |MakeSequence(v)| ==>
      MakeSequence(v)[i].Dict? && ValidateSingle(MakeSequence(v)[i]).None?
  {
    if IsSequence(v) {
      FirstRejectionIsFirstFailure(Elements(v));
    }
  }

  /** `_get_call_args` on a valid invocation dictionary: its target, and its `args` or an empty
      dictionary when there is none. */
  function GetCallArgs(entry: Value): (inv: Invocation)
    requires ValidateSingle(entry).None?
    ensures inv.args.Dict?
    ensures Lookup(entry.entries, "target") == Some(Str(inv.target))
    ensures Lookup(entry.entries, "args").Some? ==> Lookup(entry.entries, "args") == Some(inv.args)
    ensures Lookup(entry.entries, "args").None? ==> inv.args == Dict([])
  {
    var target := Lookup(entry.entries, "target").value;
    match Lookup(entry.entries, "args")
    case Some(args) => Invocation(target.s, args)
    case None => Invocation(target.s, Dict([]))
  }

  /** The invocations a validated keyword value stands for, in the given order: one per
      element of a sequence, and exactly one for a single dictionary. */
  function Invocations(v: Value): (invs: seq<Invocation>)
    requires Validate(v).None?
    ensures |invs| == |MakeSequence(v)|
    ensures forall i :: 0 <= i < |invs| ==>
      ValidateSingle(MakeSequence(v)[i]).None? && invs[i] == GetCallArgs(MakeSequence(v)[i])
    ensures v.Dict? ==> invs == [GetCallArgs(v)]
  {
    var entries := MakeSequence(v);
    ValidatedElementsAreDicts(v);
    seq(|entries|, i requires 0 <= i < |entries| => GetCallArgs(entries[i]))
  }
}
