/** Reading the runtime's configuration from the process environment
    (server/env.ts). Every variable the runtime reads is looked up under a
    build-time prefix, except the two variables set by the service manager for
    socket activation, which are always read under their bare names. */
module Env {
  import opened Common

  /** The process environment. A key that is present with an `undefined` value is
      `None`; a key that is absent is not in the map. */
  type Environment = map<string, Option<string>>

  /** The variables read without the prefix. */
  const ExpectedUnprefixed: set<string> := {"LISTEN_PID", "LISTEN_FDS"}

  /** `env(name, fallback)` gives either the variable's text or the caller's
      fallback, whose type the caller chooses. */
  datatype Setting<T> = Found(text: string) | Fallback(fallback: T)

  /** The environment key under which `name` is read. */
  function Key(prefix: string, name: string): (k: string)
    ensures name in ExpectedUnprefixed ==> k == name
    ensures name !in ExpectedUnprefixed ==> k == prefix + name
  {
    (if name in ExpectedUnprefixed then "" else prefix) + name
  }

  /** `env(name, fallback)`: the variable's value when its key is present with a
      defined value (an empty string included), and the fallback unchanged
      otherwise. */
  function Lookup<T>(e: Environment, prefix: string, name: string, fallback: T): (r: Setting<T>)
    ensures r.Found? <==> Key(prefix, name) in e && e[Key(prefix, name)].Some?
    ensures r.Found? ==> r.text == e[Key(prefix, name)].value
    ensures r.Fallback? ==> r.fallback == fallback
  {
    var key := Key(prefix, name);
    if key in e && e[key].Some? then Found(e[key].value) else Fallback(fallback)
  }

  /** `env(name, fallback)` with a string fallback. */
  function EnvOr(e: Environment, prefix: string, name: string, fallback: string): (r: string)
    ensures Key(prefix, name) in e && e[Key(prefix, name)].Some? ==> r == e[Key(prefix, name)].value
    ensures !(Key(prefix, name) in e && e[Key(prefix, name)].Some?) ==> r == fallback
  {
    match Lookup(e, prefix, name, fallback)
    case Found(v) => v
    case Fallback(f) => f
  }

  /** `env(name, undefined)` and `env(name, false)`: `None` stands for the fallback. */
  function EnvOpt(e: Environment, prefix: string, name: string): (r: Option<string>)
    ensures r.Some? <==> Key(prefix, name) in e && e[Key(prefix, name)].Some?
    ensures r.Some? ==> r == e[Key(prefix, name)]
  {
    match Lookup(e, prefix, name, ())
    case Found(v) => Some(v)
    case Fallback(_) => None
  }

  /** The socket-activation variables ignore the prefix. */
  lemma UnprefixedIgnorePrefix<T>(e: Environment, p1: string, p2: string, name: string, fallback: T)
    requires name in ExpectedUnprefixed
    ensures Lookup(e, p1, name, fallback) == Lookup(e, p2, name, fallback)
  {
  }

  /** With an empty prefix, every variable is read under its own name. */
  lemma EmptyPrefixReadsBareName<T>(e: Environment, name: string, fallback: T)
    ensures Key("", name) == name
    ensures Lookup(e, "", name, fallback)
         == if name in e && e[name].Some? then Found(e[name].value) else Fallback(fallback)
  {
    assert "" + name == name;
  }

  /** A variable that is set decides the result on its own: the fallback is unused. */
  lemma FallbackUnusedWhenSet<T>(e: Environment, prefix: string, name: string, f1: T, f2: T)
    requires Key(prefix, name) in e && e[Key(prefix, name)].Some?
    ensures Lookup(e, prefix, name, f1) == Lookup(e, prefix, name, f2)
  {
  }

  /** With a non-empty prefix, the bare variable of a prefixed name is never read. */
  lemma BareNameIgnoredUnderPrefix<T>(e: Environment, prefix: string, name: string, v: Option<string>, fallback: T)
    requires prefix != [] && name !in ExpectedUnprefixed
    ensures Lookup(e[name := v], prefix, name, fallback) == Lookup(e, prefix, name, fallback)
  {
    assert |prefix + name| > |name|;
  }
}
