/** Removal of secret-shaped fields: services/aaa-service/app/nas_planning.py. */
module Sanitize {
  import opened Common

  /** A JSON value; `Scalar` stands for any value that is neither an object nor a list. */
  datatype Json =
    | Object(fields: map<string, Json>)
    | Array(items: seq<Json>)
    | Scalar(text: string)

  /** One step into a JSON value. */
  datatype Step = Field(key: string) | Index(i: nat)

  const PROHIBITED: set<string> := {"secret", "password", "token", "credential", "shared_secret"}

  /** `sanitize_configuration`; `fold` is the case folding of keys. */
  function Sanitize(fold: string -> string, value: Json): Json {
    match value
    case Object(fields) => Object(map key | key in fields && fold(key) !in PROHIBITED :: Sanitize(fold, fields[key]))
    case Array(items) => Array(seq(|items|, i requires 0 <= i < |items| => Sanitize(fold, items[i])))
    case Scalar(_) => value
  }

  /** The value at a path. */
  function At(value: Json, path: seq<Step>): Option<Json> {
    if path == [] then Some(value)
    else match (path[0], value)
      case (Field(key), Object(fields)) => if key in fields then At(fields[key], path[1..]) else None
      case (Index(i), Array(items)) => if i < |items| then At(items[i], path[1..]) else None
      case _ => None
  }

  predicate ProhibitedStep(fold: string -> string, step: Step) {
    step.Field? && fold(step.key) in PROHIBITED
  }

  predicate ProhibitedPath(fold: string -> string, path: seq<Step>) {
    exists n | 0 <= n < |path| :: ProhibitedStep(fold, path[n])
  }

  /** What is at each path of the sanitized value: nothing behind a prohibited key, the sanitized original
      everywhere else. */
  lemma {:induction false} SanitizedAt(fold: string -> string, value: Json, path: seq<Step>)
    ensures At(Sanitize(fold, value), path) ==
      if ProhibitedPath(fold, path) || At(value, path).None? then None
      else Some(Sanitize(fold, At(value, path).value))
    decreases path
  {
    if path != [] {
      var rest := path[1..];
      assert ProhibitedPath(fold, path) <==> ProhibitedStep(fold, path[0]) || ProhibitedPath(fold, rest) by {
        if n :| 0 <= n < |path| && ProhibitedStep(fold, path[n]) && n > 0 {
          assert rest[n - 1] == path[n];
        }
        if n :| 0 <= n < |rest| && ProhibitedStep(fold, rest[n]) {
          assert path[n + 1] == rest[n];
        }
      }
      match (path[0], value)
      case (Field(key), Object(fields)) => if key in fields { SanitizedAt(fold, fields[key], rest); }
      case (Index(i), Array(items)) => if i < |items| { SanitizedAt(fold, items[i], rest); }
      case _ =>
    }
  }

  /** No prohibited key is left at any depth. */
  lemma {:induction false} NoProhibitedKeyLeft(fold: string -> string, value: Json, path: seq<Step>)
    requires ProhibitedPath(fold, path)
    ensures At(Sanitize(fold, value), path) == None
  {
    SanitizedAt(fold, value, path);
  }

  lemma {:induction false} SanitizeIdempotent(fold: string -> string, value: Json)
    ensures Sanitize(fold, Sanitize(fold, value)) == Sanitize(fold, value)
  {
    match value
    case Object(fields) =>
      forall key | key in fields {
        SanitizeIdempotent(fold, fields[key]);
      }
    case Array(items) =>
      forall i | 0 <= i < |items| {
        SanitizeIdempotent(fold, items[i]);
      }
    case Scalar(_) =>
  }

  lemma {:induction false} CleanIsFixed(fold: string -> string, value: Json)
    requires forall path | ProhibitedPath(fold, path) :: At(value, path).None?
    ensures Sanitize(fold, value) == value
  {
    match value
    case Object(fields) =>
      forall key | key in fields
        ensures fold(key) !in PROHIBITED && Sanitize(fold, fields[key]) == fields[key]
      {
        assert ProhibitedStep(fold, [Field(key)][0]) ==> ProhibitedPath(fold, [Field(key)]);
        ChildIsClean(fold, value, Field(key), fields[key]);
        CleanIsFixed(fold, fields[key]);
      }
    case Array(items) =>
      forall i | 0 <= i < |items|
        ensures Sanitize(fold, items[i]) == items[i]
      {
        ChildIsClean(fold, value, Index(i), items[i]);
        CleanIsFixed(fold, items[i]);
      }
    case Scalar(_) =>
  }

  lemma AtStep(value: Json, step: Step, child: Json, path: seq<Step>)
    requires At(value, [step]) == Some(child)
    ensures At(value, [step] + path) == At(child, path)
  {
    assert [step][1..] == [] && ([step] + path)[1..] == path;
    match (step, value)
    case (Field(key), Object(fields)) => assert At(fields[key], []) == Some(child);
    case (Index(i), Array(items)) => assert At(items[i], []) == Some(child);
    case _ =>
  }

  lemma ChildIsClean(fold: string -> string, value: Json, step: Step, child: Json)
    requires forall path | ProhibitedPath(fold, path) :: At(value, path).None?
    requires At(value, [step]) == Some(child)
    ensures forall path | ProhibitedPath(fold, path) :: At(child, path).None?
  {
    forall path | ProhibitedPath(fold, path)
      ensures At(child, path).None?
    {
      var longer := [step] + path;
      var n :| 0 <= n < |path| && ProhibitedStep(fold, path[n]);
      assert ProhibitedStep(fold, longer[n + 1]);
      assert longer[1..] == path && [step][1..] == [];
      assert ProhibitedPath(fold, longer);
      AtStep(value, step, child, path);
    }
  }

  /** Sanitizing changes a value exactly when a prohibited key occurs in it at some depth. */
  lemma UnchangedIffClean(fold: string -> string, value: Json)
    ensures Sanitize(fold, value) == value <==> forall path | ProhibitedPath(fold, path) :: At(value, path).None?
  {
    if Sanitize(fold, value) == value {
      forall path | ProhibitedPath(fold, path)
        ensures At(value, path).None?
      {
        SanitizedAt(fold, value, path);
      }
    }
    if forall path | ProhibitedPath(fold, path) :: At(value, path).None? {
      CleanIsFixed(fold, value);
    }
  }

  /** `configuration_hash`: the digest of the printed sanitized value. */
  function ConfigurationHash(fold: string -> string, digest: Json -> string, value: Json): string {
    digest(Sanitize(fold, value))
  }

  /** Sanitizing does not change the hash, and configurations that differ in prohibited parts only hash alike. */
  lemma {:induction false} HashOfSanitized(fold: string -> string, digest: Json -> string, value: Json, other: Json)
    requires Sanitize(fold, value) == Sanitize(fold, other)
    ensures ConfigurationHash(fold, digest, value) == ConfigurationHash(fold, digest, Sanitize(fold, other))
  {
    SanitizeIdempotent(fold, other);
  }

  /** The keys that may not stay, at any depth, by their folded names. */
  lemma {:induction false} SecretKeysGo(fold: string -> string, value: Json, path: seq<Step>, n: nat)
    requires n < |path| && path[n].Field?
    requires fold(path[n].key) in {"secret", "password", "token", "credential", "shared_secret"}
    ensures At(Sanitize(fold, value), path) == None
  {
    assert ProhibitedStep(fold, path[n]);
    NoProhibitedKeyLeft(fold, value, path);
  }

  /** Every other path stays, and a value that is no object or list stays as it is. */
  lemma OtherPathsStay(fold: string -> string, value: Json, path: seq<Step>)
    requires forall n | 0 <= n < |path| && path[n].Field? ::
      fold(path[n].key) !in {"secret", "password", "token", "credential", "shared_secret"}
    ensures At(Sanitize(fold, value), path).Some? == At(value, path).Some?
    ensures At(value, path).Some? && At(value, path).value.Scalar? ==>
      At(Sanitize(fold, value), path) == At(value, path)
  {
    SanitizedAt(fold, value, path);
  }

  /** With an injective digest, hashes are equal exactly when the sanitized forms are. */
  lemma HashesEqualIff(fold: string -> string, digest: Json -> string, a: Json, b: Json)
    requires forall x, y :: digest(x) == digest(y) ==> x == y
    ensures ConfigurationHash(fold, digest, a) == ConfigurationHash(fold, digest, b)
       <==> Sanitize(fold, a) == Sanitize(fold, b)
  {}
}
