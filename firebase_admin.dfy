/** Loading the server's service-account key from its environment variable. */
module FirebaseAdmin {
  import opened Wrappers
  import opened Js

  /** A backslash followed by `n`: the two-character escape a newline turns into inside an environment variable. */
  predicate EscapeAt(s: string, i: int)
  {
    0 <= i && i + 1 < |s| && s[i] == '\\' && s[i + 1] == 'n'
  }

  predicate HasEscapedNewline(s: string)
  {
    exists i :: 0 <= i < |s| && EscapeAt(s, i)
  }

  /** `s.replace(/\\n/g, '\n')`: every escape, scanned left to right, becomes a newline. */
  function FixNewlines(s: string): (r: string)
    ensures |r| <= |s|
    ensures s != [] ==> r != [] && r[0] == (if EscapeAt(s, 0) then '\n' else s[0])
  {
    if s == [] then []
    else if EscapeAt(s, 0) then ['\n'] + FixNewlines(s[2..])
    else [s[0]] + FixNewlines(s[1..])
  }

  /** No escape survives the replacement. */
  lemma {:induction false} FixNewlinesRemovesAll(s: string)
    ensures !HasEscapedNewline(FixNewlines(s))
  {
    if s != [] {
      var rest := if EscapeAt(s, 0) then s[2..] else s[1..];
      FixNewlinesRemovesAll(rest);
      var r := FixNewlines(s);
      assert r[1..] == FixNewlines(rest);
      forall i | 0 <= i < |r| ensures !EscapeAt(r, i) {
        if i > 0 {
          assert !EscapeAt(FixNewlines(rest), i - 1);
        }
      }
    }
  }

  /** A text without escapes is left as it is. */
  lemma {:induction false} FixNewlinesKeepsPlainText(s: string)
    requires !HasEscapedNewline(s)
    ensures FixNewlines(s) == s
  {
    if s != [] {
      assert !EscapeAt(s, 0);
      forall i | 0 <= i ensures !EscapeAt(s[1..], i) {
        assert !EscapeAt(s, i + 1);
      }
      FixNewlinesKeepsPlainText(s[1..]);
    }
  }

  /** Fixing twice is fixing once. */
  lemma FixNewlinesIdempotent(s: string)
    ensures FixNewlines(FixNewlines(s)) == FixNewlines(s)
  {
    FixNewlinesRemovesAll(s);
    FixNewlinesKeepsPlainText(FixNewlines(s));
  }

  /** How a newline is written inside the environment variable: as a backslash and `n`. */
  function EscapeNewlines(s: string): (r: string)
    ensures |r| >= |s|
    ensures s != [] ==> r != [] && r[0] == (if s[0] == '\n' then '\\' else s[0])
  {
    if s == [] then []
    else if s[0] == '\n' then ['\\', 'n'] + EscapeNewlines(s[1..])
    else [s[0]] + EscapeNewlines(s[1..])
  }

  /** A key without a literal backslash-`n` in it comes back unchanged after escaping and fixing. */
  lemma {:induction false} FixUndoesEscape(s: string)
    requires !HasEscapedNewline(s)
    ensures FixNewlines(EscapeNewlines(s)) == s
  {
    if s != [] {
      forall i | 0 <= i ensures !EscapeAt(s[1..], i) {
        assert !EscapeAt(s, i + 1);
      }
      FixUndoesEscape(s[1..]);
      var e := EscapeNewlines(s);
      if s[0] == '\n' {
        assert EscapeAt(e, 0) && e[2..] == EscapeNewlines(s[1..]);
      } else {
        assert e[1..] == EscapeNewlines(s[1..]);
        assert !EscapeAt(s, 0);
        assert !EscapeAt(e, 0);
      }
    }
  }

  /**
   * What the module leaves in `serviceAccount`, given the environment value
   * and what `JSON.parse` makes of it (`None` when it throws). Only a
   * non-empty string is parsed. Any exception in the block (invalid JSON, a
   * `null` document, a truthy `private_key` that is not a string) leaves `null`.
   */
  function Loaded(env: Value, parsed: Option<Value>): (r: Value)
    ensures !(env.Str? && Truthy(env)) ==> r == env
    ensures env.Str? && Truthy(env) && parsed.None? ==> r == Null
    ensures env.Str? && Truthy(env) && parsed.Some? && parsed.value.Obj? && "private_key" !in parsed.value.fields ==>
      r == parsed.value
    // Reading `private_key` of a null document throws.
    ensures env.Str? && Truthy(env) && parsed.Some? && Nullish(parsed.value) ==> r == Null
    // A truthy string key has its escapes replaced and nothing else changes.
    ensures env.Str? && Truthy(env) && parsed.Some? && parsed.value.Obj? ==>
      var key := Field(parsed.value.fields, "private_key");
      && (key.Str? && Truthy(key) ==> r == Obj(parsed.value.fields["private_key" := Str(FixNewlines(key.s))]))
      // A truthy key that is not a string has no `replace`: the call throws.
      && (!key.Str? && Truthy(key) ==> r == Null)
      // A falsy key is left alone.
      && (!Truthy(key) ==> r == parsed.value)
    // A parsed number, string or boolean has no `private_key` and is kept.
    ensures env.Str? && Truthy(env) && parsed.Some? && !Nullish(parsed.value) && !parsed.value.Obj? ==>
      r == parsed.value
  {
    if !(env.Str? && Truthy(env)) then env
    else
      match parsed
      case None => Null
      case Some(p) =>
        if Nullish(p) then Null
        else if p.Obj? && Truthy(Field(p.fields, "private_key")) then
          var key := p.fields["private_key"];
          if key.Str? then Obj(p.fields["private_key" := Str(FixNewlines(key.s))]) else Null
        else p
  }

  /** A loaded object with a string key never has an escape left in it, and keeps every other field. */
  lemma LoadedKeyIsFixed(env: Value, parsed: Option<Value>)
    requires env.Str? && Truthy(env) && parsed.Some? && parsed.value.Obj?
    requires Loaded(env, parsed).Obj?
    ensures var fields := Loaded(env, parsed).fields;
      var original := Field(parsed.value.fields, "private_key");
      && fields.Keys == parsed.value.fields.Keys
      && (forall k :: k in fields && k != "private_key" ==> fields[k] == parsed.value.fields[k])
      && (original.Str? && Truthy(original) ==> fields["private_key"] == Str(FixNewlines(original.s)))
      && (!Truthy(original) ==> fields == parsed.value.fields)
      && (Field(fields, "private_key").Str? ==> !HasEscapedNewline(Field(fields, "private_key").s))
  {
    var original := Field(parsed.value.fields, "private_key");
    if original.Str? {
      FixNewlinesRemovesAll(original.s);
      if !Truthy(original) {
        assert original.s == "";
      }
    }
  }

  /** The module-level `serviceAccount` variable. */
  class ServiceAccount {
    var value: Value

    /** `let serviceAccount = process.env.FIREBASE_SERVICE_ACCOUNT_KEY` */
    constructor (env: Value)
      ensures value == env
    {
      value := env;
    }

    /** The parse-and-fix block, which reassigns the variable and rewrites `private_key` in place. */
    method FixUp(parsed: Option<Value>)
      modifies this
      ensures value == Loaded(old(value), parsed)
    {
      if value.Str? && Truthy(value) {
        match parsed {
          case None =>
            value := Null;
          case Some(p) =>
            value := p;
            if Nullish(value) {
              value := Null;
            } else if value.Obj? && Truthy(Field(value.fields, "private_key")) {
              var key := value.fields["private_key"];
              if key.Str? {
                value := Obj(value.fields["private_key" := Str(FixNewlines(key.s))]);
              } else {
                value := Null;
              }
            }
        }
      }
    }
  }
}
