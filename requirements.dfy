/** `_check_requierements_` (circus/files/datafile.py:5-26): completes the keyword
    arguments of a file format with the fields it declares, taking each missing one
    from its declared default or, when it has none, from the [data] section. */
module Requirements {
  import opened Wrappers
  import opened Errors
  import opened Params

  /** A declared field: the name of its type and its default (None: mandatory). */
  datatype FieldSpec = FieldSpec(kind: string, default: Option<Value>)

  /** The `_requiered_fields` dictionary, in its iteration order. */
  type Fields = seq<(string, FieldSpec)>

  /** Dictionary keys are distinct. */
  predicate DistinctKeys(fields: Fields) {
    forall i, j :: 0 <= i < j < |fields| ==> fields[i].0 != fields[j].0
  }

  /** What one absent field receives: its default, else a typed lookup of [data]; None
      when the type name is none of the four the source knows (the key then stays unset). */
  function FieldValue(key: string, spec: FieldSpec, cfg: Config): Result<Option<Value>, Error> {
    if spec.default.Some? then Success(spec.default)
    else if spec.kind == "int" then
      match GetInt(cfg, "data", key)
      case Success(n) => Success(Some(IntV(n)))
      case Failure(_) => Failure(MissingField(key, spec.kind))
    else if spec.kind == "string" then
      match Get(cfg, "data", key)
      case Success(v) => Success(Some(v))
      case Failure(_) => Failure(MissingField(key, spec.kind))
    else if spec.kind == "float" then
      match GetFloat(cfg, "data", key)
      case Success(x) => Success(Some(RealV(x)))
      case Failure(_) => Failure(MissingField(key, spec.kind))
    else if spec.kind == "bool" then
      match GetBool(cfg, "data", key)
      case Success(b) => Success(Some(BoolV(b)))
      case Failure(_) => Failure(MissingField(key, spec.kind))
    else Success(None)
  }

  /** The keyword arguments after the fields have been visited in order; the first
      field that cannot be filled ends the visit with its error. */
  function Complete(fields: Fields, cfg: Config, kw: map<string, Value>): Result<map<string, Value>, Error>
    decreases |fields|
  {
    if fields == [] then Success(kw)
    else
      var key := fields[0].0;
      if key in kw then Complete(fields[1..], cfg, kw)
      else
        var v :- FieldValue(key, fields[0].1, cfg);
        Complete(fields[1..], cfg, if v.Some? then kw[key := v.value] else kw)
  }

  /** The loop of `_check_requierements_`, which updates the keyword dictionary in place. */
  method CheckRequirements(fields: Fields, params: Config, kwargs: map<string, Value>)
    returns (r: Result<map<string, Value>, Error>)
    ensures r == Complete(fields, params, kwargs)
  {
    var kw := kwargs;
    var i := 0;
    while i < |fields|
      invariant 0 <= i <= |fields|
      invariant Complete(fields[i..], params, kw) == Complete(fields, params, kwargs)
    {
      assert fields[i..][1..] == fields[i + 1..];
      var (key, spec) := fields[i];
      if key !in kw {
        var v := FieldValue(key, spec, params);
        if v.Failure? {
          return Failure(v.error);
        }
        if v.value.Some? {
          kw := kw[key := v.value.value];
        }
      }
      i := i + 1;
    }
    return Success(kw);
  }

  /** Keys already present are left untouched. */
  lemma {:induction false} CompleteKeepsPresent(fields: Fields, cfg: Config, kw: map<string, Value>, k: string)
    requires Complete(fields, cfg, kw).Success?
    requires k in kw
    ensures k in Complete(fields, cfg, kw).value && Complete(fields, cfg, kw).value[k] == kw[k]
    decreases |fields|
  {
    if fields != [] {
      var key := fields[0].0;
      if key in kw {
        CompleteKeepsPresent(fields[1..], cfg, kw, k);
      } else {
        var v := FieldValue(key, fields[0].1, cfg).value;
        var kw' := if v.Some? then kw[key := v.value] else kw;
        CompleteKeepsPresent(fields[1..], cfg, kw', k);
      }
    }
  }

  /** No key appears other than those given and those declared. */
  lemma {:induction false} CompleteAddsOnlyDeclared(fields: Fields, cfg: Config, kw: map<string, Value>, k: string)
    requires Complete(fields, cfg, kw).Success?
    requires k in Complete(fields, cfg, kw).value
    ensures k in kw || exists i :: 0 <= i < |fields| && fields[i].0 == k
    decreases |fields|
  {
    if fields != [] {
      var key := fields[0].0;
      var kw' := kw;
      if key !in kw {
        var v := FieldValue(key, fields[0].1, cfg).value;
        kw' := if v.Some? then kw[key := v.value] else kw;
      }
      CompleteAddsOnlyDeclared(fields[1..], cfg, kw', k);
      if exists i :: 0 <= i < |fields[1..]| && fields[1..][i].0 == k {
        var i :| 0 <= i < |fields[1..]| && fields[1..][i].0 == k;
        assert fields[i + 1].0 == k;
      }
    }
  }

  /** The visit fails exactly when some declared field is absent and cannot be filled. */
  lemma {:induction false} CompleteFailsIff(fields: Fields, cfg: Config, kw: map<string, Value>)
    requires DistinctKeys(fields)
    ensures Complete(fields, cfg, kw).Failure? <==>
            exists i :: 0 <= i < |fields| && fields[i].0 !in kw && FieldValue(fields[i].0, fields[i].1, cfg).Failure?
    decreases |fields|
  {
    if fields != [] {
      var key := fields[0].0;
      var tail := fields[1..];
      assert DistinctKeys(tail) by {
        forall i, j | 0 <= i < j < |tail| ensures tail[i].0 != tail[j].0 {
          assert tail[i] == fields[i + 1] && tail[j] == fields[j + 1];
        }
      }
      var fv := FieldValue(key, fields[0].1, cfg);
      if key in kw || fv.Success? {
        var kw' := if key in kw then kw else if fv.value.Some? then kw[key := fv.value.value] else kw;
        CompleteFailsIff(tail, cfg, kw');
        // the other keys are absent from kw' exactly when they are absent from kw
        if exists i :: 0 <= i < |fields| && fields[i].0 !in kw && FieldValue(fields[i].0, fields[i].1, cfg).Failure? {
          var i :| 0 <= i < |fields| && fields[i].0 !in kw && FieldValue(fields[i].0, fields[i].1, cfg).Failure?;
          assert i != 0;
          assert fields[i].0 != key;
          assert tail[i - 1] == fields[i];
        }
        if exists i :: 0 <= i < |tail| && tail[i].0 !in kw' && FieldValue(tail[i].0, tail[i].1, cfg).Failure? {
          var i :| 0 <= i < |tail| && tail[i].0 !in kw' && FieldValue(tail[i].0, tail[i].1, cfg).Failure?;
          assert tail[i] == fields[i + 1];
        }
      } else {
        assert fields[0].0 !in kw && FieldValue(fields[0].0, fields[0].1, cfg).Failure?;
      }
    }
  }

  /** On success, a declared field that was absent holds what FieldValue gave it. */
  lemma {:induction false} CompleteFieldAt(fields: Fields, cfg: Config, kw: map<string, Value>, i: int)
    requires DistinctKeys(fields)
    requires Complete(fields, cfg, kw).Success?
    requires 0 <= i < |fields| && fields[i].0 !in kw
    ensures FieldValue(fields[i].0, fields[i].1, cfg).Success?
    ensures var v := FieldValue(fields[i].0, fields[i].1, cfg).value;
            var out := Complete(fields, cfg, kw).value;
            if v.Some? then fields[i].0 in out && out[fields[i].0] == v.value else fields[i].0 !in out
    decreases |fields|
  {
    CompleteFailsIff(fields, cfg, kw);
    var key := fields[0].0;
    var tail := fields[1..];
    assert DistinctKeys(tail) by {
      forall a, b | 0 <= a < b < |tail| ensures tail[a].0 != tail[b].0 {
        assert tail[a] == fields[a + 1] && tail[b] == fields[b + 1];
      }
    }
    var fv := FieldValue(key, fields[0].1, cfg);
    var kw' := if key in kw then kw else if fv.value.Some? then kw[key := fv.value.value] else kw;
    assert Complete(fields, cfg, kw) == Complete(tail, cfg, kw');
    if i == 0 {
      if fv.value.Some? {
        CompleteKeepsPresent(tail, cfg, kw', key);
      } else if key in Complete(tail, cfg, kw').value {
        CompleteAddsOnlyDeclared(tail, cfg, kw', key);
        assert false;
      }
    } else {
      assert tail[i - 1] == fields[i];
      assert fields[i].0 != key;
      CompleteFieldAt(tail, cfg, kw', i - 1);
    }
  }

  /** The source's promise for each declared field in terms of the configuration:
      a present key is kept, a non-None default wins, otherwise the typed [data] lookup
      of the declared type; a field of unknown type stays unset. */
  lemma CompleteFieldValue(fields: Fields, cfg: Config, kw: map<string, Value>, i: int)
    requires DistinctKeys(fields)
    requires Complete(fields, cfg, kw).Success?
    requires 0 <= i < |fields|
    ensures var (key, spec) := fields[i];
            var out := Complete(fields, cfg, kw).value;
            && (key in kw ==> key in out && out[key] == kw[key])
            && (key !in kw && spec.default.Some? ==> key in out && out[key] == spec.default.value)
            && (key !in kw && spec.default.None? && spec.kind == "int" ==>
                  GetInt(cfg, "data", key).Success? && key in out && out[key] == IntV(GetInt(cfg, "data", key).value))
            && (key !in kw && spec.default.None? && spec.kind == "float" ==>
                  GetFloat(cfg, "data", key).Success? && key in out && out[key] == RealV(GetFloat(cfg, "data", key).value))
            && (key !in kw && spec.default.None? && spec.kind == "string" ==>
                  Get(cfg, "data", key).Success? && key in out && out[key] == Get(cfg, "data", key).value)
            && (key !in kw && spec.default.None? && spec.kind == "bool" ==>
                  GetBool(cfg, "data", key).Success? && key in out && out[key] == BoolV(GetBool(cfg, "data", key).value))
            && (key !in kw && spec.default.None? && spec.kind !in ["int", "float", "string", "bool"] ==> key !in out)
  {
    if fields[i].0 in kw {
      CompleteKeepsPresent(fields, cfg, kw, fields[i].0);
    } else {
      CompleteFieldAt(fields, cfg, kw, i);
    }
  }
}
