/** The few rules of the host language that decide whether a statement of
  * the pipeline raises: which operand types `+` accepts, how `!=` compares
  * values of different types, and how a call's arguments bind to the
  * parameters of the function called. */
module PythonSemantics {
  import opened Errors

  /** The values whose types matter here: integers, strings, filesystem
    * paths (`pathlib.Path`), dictionaries and `None`. */
  datatype Value = Int(i: int) | Str(s: string) | PathValue(p: string) | DictValue | NoneValue

  /** `a + b`: integers add, strings concatenate; a path has no `+`, and any
    * other pair of operand types raises TypeError. */
  function Add(a: Value, b: Value): (r: Result<Value>)
    ensures r.Success? <==> (a.Int? && b.Int?) || (a.Str? && b.Str?)
    ensures r.Failure? ==> r.error == TypeError
    ensures a.Str? && b.Str? ==> r == Success(Str(a.s + b.s))
  {
    match (a, b)
    case (Int(x), Int(y)) => Success(Int(x + y))
    case (Str(x), Str(y)) => Success(Str(x + y))
    case _ => Failure(TypeError)
  }

  /** `v != 0`: a value of another type than `int` never equals an integer. */
  predicate NotZero(v: Value)
  {
    !(v.Int? && v.i == 0)
  }

  /** `open(v, 'r')`: a file is named by a string or a path, or given as
    * an integer descriptor; any other argument raises TypeError before a
    * file is touched. Whether the named file exists is not decided here. */
  function Open(v: Value): (r: Result<()>)
    ensures r.Failure? <==> v.DictValue? || v.NoneValue?
    ensures r.Failure? ==> r.error == TypeError
  {
    if v.Int? || v.Str? || v.PathValue? then Success(()) else Failure(TypeError)
  }

  /** `d[key]` on a dictionary whose keys are `keys`: KeyError unless the
    * key is there. */
  function Subscript(keys: set<string>, key: string): (r: Result<()>)
    ensures r.Success? <==> key in keys
    ensures r.Failure? ==> r.error == KeyError
  {
    if key in keys then Success(()) else Failure(KeyError)
  }

  /** `module.name`: AttributeError unless the module defines or imports
    * `name` at its top level. */
  function GetAttr(namespace: set<string>, name: string): (r: Result<()>)
    ensures r.Success? <==> name in namespace
    ensures r.Failure? ==> r.error == AttributeError
  {
    if name in namespace then Success(()) else Failure(AttributeError)
  }

  /** A function's parameter names; the last `defaults` of them have
    * default values. */
  datatype Signature = Signature(params: seq<string>, defaults: nat)

  /** The arguments of a call: how many are positional, and the names of
    * the keyword ones. */
  datatype CallSite = CallSite(positional: nat, keywords: seq<string>)

  /** Whether the arguments bind: no more positional arguments than
    * parameters, every keyword names a parameter not already filled
    * positionally, and every parameter without a default is filled. */
  predicate Binds(f: Signature, c: CallSite)
  {
    c.positional <= |f.params|
    && (forall k :: k in c.keywords ==> k in f.params[c.positional..])
    && (forall i :: c.positional <= i < |f.params| - f.defaults ==> f.params[i] in c.keywords)
  }

  /** Calling `f` with the arguments `c`: a call that does not bind raises
    * TypeError before the body runs. */
  function Call(f: Signature, c: CallSite): (r: Result<()>)
    ensures r.Success? <==> Binds(f, c)
    ensures r.Failure? ==> r.error == TypeError
  {
    if Binds(f, c) then Success(()) else Failure(TypeError)
  }

  /** A call with more positional arguments than the function has
    * parameters never binds, whatever its keywords. */
  lemma TooManyPositional(f: Signature, c: CallSite)
    requires c.positional > |f.params|
    ensures Call(f, c) == Failure(TypeError)
  {
  }

  /** A keyword naming no parameter never binds. */
  lemma UnknownKeyword(f: Signature, c: CallSite, k: string)
    requires k in c.keywords && k !in f.params
    ensures Call(f, c) == Failure(TypeError)
  {
    if c.positional <= |f.params| {
      assert k !in f.params[c.positional..] by {
        forall x | x in f.params[c.positional..]
          ensures x in f.params
        {
          var j :| 0 <= j < |f.params| - c.positional && f.params[c.positional..][j] == x;
          assert f.params[c.positional + j] == x;
        }
      }
    }
  }
}
