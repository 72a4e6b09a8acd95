/** The objects `initLogger` hands back and the prefixing adapter around a logger. */
module Adapter {
  import opened Wrappers

  /** What `initLogger` returns: the named logger itself, or a prefixing adapter around it. */
  datatype LoggerObj = Plain(name: string) | Adapted(name: string, prefix: string)

  /** `LoggerAdapter.process`: the message becomes the prefix, one space, then the message;
      the keyword arguments pass through untouched. */
  function Process<K>(prefix: string, msg: string, kwargs: K): (r: (string, K))
    ensures |r.0| == |prefix| + 1 + |msg|
    ensures r.0[..|prefix|] == prefix && r.0[|prefix|] == ' ' && r.0[|prefix| + 1..] == msg
    ensures r.1 == kwargs
  {
    (prefix + " " + msg, kwargs)
  }

  /** Recovers the original message from a processed one, if it carries `prefix` and a space. */
  function Unprefix(prefix: string, s: string): (r: Option<string>)
    ensures r.Some? ==> |s| == |prefix| + 1 + |r.value|
  {
    if |s| > |prefix| && s[..|prefix|] == prefix && s[|prefix|] == ' '
    then Some(s[|prefix| + 1..])
    else None
  }

  /** Processing with a prefix can always be undone. */
  lemma UnprefixProcess<K>(prefix: string, msg: string, kwargs: K)
    ensures Unprefix(prefix, Process(prefix, msg, kwargs).0) == Some(msg)
  {
    var s := Process(prefix, msg, kwargs).0;
    assert s[..|prefix|] == prefix;
  }

  /** Every message Unprefix accepts is exactly the processing of what it returns. */
  lemma ProcessUnprefix<K>(prefix: string, s: string, kwargs: K)
    requires Unprefix(prefix, s).Some?
    ensures Process(prefix, Unprefix(prefix, s).value, kwargs).0 == s
  {
    var m := Unprefix(prefix, s).value;
    assert s == s[..|prefix|] + [s[|prefix|]] + s[|prefix| + 1..];
  }

  /** Python truthiness of `prepend`: `None` and the empty string are false. */
  predicate Truthy(prepend: Option<string>)
    ensures Truthy(prepend) ==> prepend != None && prepend != Some("")
    ensures prepend.Some? && |prepend.value| > 0 ==> Truthy(prepend)
  {
    prepend.Some? && prepend.value != ""
  }

  /** The object `initLogger` returns for logger `name` (lines 91-95). */
  function Wrap(name: string, prepend: Option<string>): (obj: LoggerObj)
    ensures obj.name == name
    ensures obj.Adapted? <==> Truthy(prepend)
    ensures obj.Adapted? ==> Some(obj.prefix) == prepend
    ensures prepend == None || prepend == Some("") ==> obj == Plain(name)
  {
    if Truthy(prepend) then Adapted(name, prepend.value) else Plain(name)
  }

  /** The text a message has once it reaches the logger behind `obj`. */
  function MessageVia(obj: LoggerObj, msg: string): (m: string)
    ensures obj.Plain? ==> m == msg
    ensures obj.Adapted? ==> Unprefix(obj.prefix, m) == Some(msg)
  {
    match obj
    case Plain(_) => msg
    case Adapted(_, p) =>
      UnprefixProcess(p, msg, 0);
      Process(p, msg, 0).0
  }
}
