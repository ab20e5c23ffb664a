/**
  What the page-load handler hands to the webview: one script per drained path
  whose JSON encoding succeeds, each appending the encoded path to the global
  buffer `window.__CFJ_PENDING__` that the UI code reads on its own schedule.
  The JSON encoder is a parameter `encode`: `None` stands for an encoding error.
*/
module Delivery {
  import opened Wrappers

  const ScriptPrefix: string :=
    "window.__CFJ_PENDING__ = window.__CFJ_PENDING__ || []; window.__CFJ_PENDING__.push("
  const ScriptSuffix: string := ");"

  /** The script built around one encoded path. */
  function Script(encoded: string): string
  {
    ScriptPrefix + encoded + ScriptSuffix
  }

  /**
    The argument text of the `push` call in a script: the text between the
    fixed prefix and suffix. For a built script this is the JSON literal, whose
    decoding in the webview is not part of this model.
  */
  function Payload(script: string): Option<string>
  {
    if |ScriptPrefix| + |ScriptSuffix| <= |script|
       && script[..|ScriptPrefix|] == ScriptPrefix
       && script[|script| - |ScriptSuffix|..] == ScriptSuffix
    then Some(script[|ScriptPrefix|..|script| - |ScriptSuffix|])
    else None
  }

  /** The `push` argument of every script is exactly the encoded path it was built from. */
  lemma PayloadOfScript(encoded: string)
    ensures Payload(Script(encoded)) == Some(encoded)
  {
  }

  /** A text whose payload is `encoded` is exactly the script built from `encoded`. */
  lemma ScriptOfPayload(script: string, encoded: string)
    requires Payload(script) == Some(encoded)
    ensures Script(encoded) == script
  {
  }

  /** Distinct encoded paths give distinct scripts. */
  lemma ScriptInjective(e1: string, e2: string)
    requires Script(e1) == Script(e2)
    ensures e1 == e2
  {
    PayloadOfScript(e1);
    PayloadOfScript(e2);
  }

  /** The scripts produced for one path: one if it encodes, none if it does not. */
  function ScriptsFor(path: string, encode: string -> Option<string>): seq<string>
  {
    match encode(path)
    case Some(encoded) => [Script(encoded)]
    case None => []
  }

  /** The scripts handed to the webview for a drained queue, in queue order. */
  function DeliveryScripts(paths: seq<string>, encode: string -> Option<string>): seq<string>
  {
    if paths == [] then [] else ScriptsFor(paths[0], encode) + DeliveryScripts(paths[1..], encode)
  }

  /**
    The positions, from `from` on, of the paths that encode, in increasing
    order: the source of each script of `DeliveryScripts(paths[from..], encode)`.
  */
  function Sources(paths: seq<string>, encode: string -> Option<string>, from: nat): seq<nat>
    requires from <= |paths|
    decreases |paths| - from
  {
    if from == |paths| then []
    else (if encode(paths[from]).Some? then [from] else []) + Sources(paths, encode, from + 1)
  }

  /** Delivering two queued stretches one after the other is delivering their concatenation. */
  lemma {:induction false} DeliveryScriptsAppend(a: seq<string>, b: seq<string>, encode: string -> Option<string>)
    ensures DeliveryScripts(a + b, encode) == DeliveryScripts(a, encode) + DeliveryScripts(b, encode)
  {
    if a == [] {
      assert a + b == b;
    } else {
      assert (a + b)[1..] == a[1..] + b;
      DeliveryScriptsAppend(a[1..], b, encode);
    }
  }

  /** A path whose encoding fails is skipped and changes nothing for the paths around it. */
  lemma FailedEncodingSkipped(a: seq<string>, path: string, b: seq<string>, encode: string -> Option<string>)
    requires encode(path).None?
    ensures DeliveryScripts(a + [path] + b, encode) == DeliveryScripts(a + b, encode)
  {
    var before, after := DeliveryScripts(a, encode), DeliveryScripts(b, encode);
    calc {
      DeliveryScripts(a + [path] + b, encode);
    ==  { DeliveryScriptsAppend(a + [path], b, encode); }
      DeliveryScripts(a + [path], encode) + after;
    ==  { DeliveryScriptsAppend(a, [path], encode); }
      before + DeliveryScripts([path], encode) + after;
    ==  { assert [path][1..] == []; }
      before + after;
    ==  { DeliveryScriptsAppend(a, b, encode); }
      DeliveryScripts(a + b, encode);
    }
  }

  /** At most one script per path: never more scripts than drained paths. */
  lemma {:induction false} DeliveryScriptsBound(paths: seq<string>, encode: string -> Option<string>)
    ensures |DeliveryScripts(paths, encode)| <= |paths|
    ensures |DeliveryScripts(paths, encode)| == |paths| <==> forall i :: 0 <= i < |paths| ==> encode(paths[i]).Some?
  {
    if paths != [] {
      DeliveryScriptsBound(paths[1..], encode);
      assert forall i :: 1 <= i < |paths| ==> paths[i] == paths[1..][i - 1];
    }
  }

  /**
    Exact account of a delivery: script k comes from path `Sources(..)[k]`; the
    sources strictly increase, so the scripts follow queue order and no path is
    the source of two scripts; and every path that encodes is a source, so none
    is dropped.
  */
  lemma {:induction false} DeliveryScriptsSources(paths: seq<string>, encode: string -> Option<string>, from: nat)
    requires from <= |paths|
    ensures var scripts, src := DeliveryScripts(paths[from..], encode), Sources(paths, encode, from);
      && |scripts| == |src|
      && (forall k :: 0 <= k < |src| ==>
            from <= src[k] < |paths| && encode(paths[src[k]]).Some? &&
            scripts[k] == Script(encode(paths[src[k]]).value))
      && (forall k, l :: 0 <= k < l < |src| ==> src[k] < src[l])
      && (forall i :: from <= i < |paths| && encode(paths[i]).Some? ==> i in src)
    decreases |paths| - from
  {
    if from < |paths| {
      DeliveryScriptsSources(paths, encode, from + 1);
      assert paths[from..][1..] == paths[from + 1..];
    }
  }
}
