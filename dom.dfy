/**
  The part of the browser document the toolkit touches. Element lookups are
  oracles supplied by the caller; the elements the toolkit creates are
  values; the list of `<script>` elements is the one piece of document state
  that is changed in place.
 */
module Dom {
  import opened Js
  import Strings

  /** The identity of an element already in the document. */
  type NodeId = nat

  /** `document.querySelector(selector)`: the first match, no match, or a thrown SyntaxError. */
  type Query = string -> Result<Option<NodeId>>

  /** `document.querySelectorAll(selector)`, in document order. */
  type QueryAll = string -> Result<seq<NodeId>>

  /** Whether an element appended with `wait` fires `onload` (true) or `onerror` (false). */
  type LoadOracle = Element -> bool

  datatype Location = Head | Body

  /** `['head', 'body'].includes(location)`, giving `document[location]`. */
  function ParseLocation(location: string): (r: Option<Location>)
    ensures r.Some? <==> location == "head" || location == "body"
    ensures r == Some(Head) <==> location == "head"
  {
    if location == "head" then Some(Head)
    else if location == "body" then Some(Body)
    else None
  }

  /** The elements the toolkit creates with `document.createElement`. */
  datatype Element =
    | LinkElement(rel: string, linkType: string, href: string)
    | StyleElement(innerHTML: string)
    | ScriptElement(scriptType: string, src: string, innerHTML: string)

  /** The `InjectParametersObject` of styles and scripts, with its defaults. */
  datatype InjectParameters = InjectParameters(
    url: string := "",
    text: string := "",
    location: string := "head",
    wait: bool := false)

  /** The parameter objects the head-URL bulk injections build: `{ url, location: 'head', wait }` per URL, in order. */
  method HeadUrlParameters(urls: seq<string>, wait: bool) returns (ps: seq<InjectParameters>)
    ensures |ps| == |urls|
    ensures forall k :: 0 <= k < |urls| ==> ps[k] == InjectParameters(url := urls[k], location := "head", wait := wait)
  {
    ps := [];
    for i := 0 to |urls|
      invariant |ps| == i
      invariant forall k :: 0 <= k < i ==> ps[k] == InjectParameters(url := urls[k], location := "head", wait := wait)
    {
      ps := ps + [InjectParameters(url := urls[i], location := "head", wait := wait)];
    }
  }

  /**
    What a successful `inject` did: `element` was appended to `location`.
    With `awaitsLoad` the call returned a promise of the element's load
    event instead of the element.
   */
  datatype Injected = Injected(element: Element, location: Location, awaitsLoad: bool)

  /** What a bulk injection collects: the element itself, or its load event. */
  datatype Loaded = ElementValue(element: Element) | LoadEvent(of: Element)

  /** A `<script>` element of the document, with the resolved value of its `src` (empty for inline scripts). */
  datatype ScriptNode = ScriptNode(id: NodeId, src: string)

  /** The script elements that survive removing every one whose `src` includes `name`. */
  function Kept(scripts: seq<ScriptNode>, name: string): (r: seq<ScriptNode>)
    ensures |r| <= |scripts|
  {
    if scripts == [] then []
    else if Strings.Includes(scripts[0].src, name) then Kept(scripts[1..], name)
    else [scripts[0]] + Kept(scripts[1..], name)
  }

  /** A script survives exactly when it was there and its `src` does not include `name`. */
  lemma {:induction false} KeptMembers(scripts: seq<ScriptNode>, name: string, x: ScriptNode)
    ensures x in Kept(scripts, name) <==> x in scripts && !Strings.Includes(x.src, name)
  {
    if scripts != [] {
      KeptMembers(scripts[1..], name, x);
      assert scripts == [scripts[0]] + scripts[1..];
    }
  }

  /** Some script's `src` includes `name`. */
  predicate AnyIncludes(scripts: seq<ScriptNode>, name: string)
  {
    exists k | 0 <= k < |scripts| :: Strings.Includes(scripts[k].src, name)
  }

  lemma {:induction false} KeptAppend(scripts: seq<ScriptNode>, x: ScriptNode, name: string)
    ensures Kept(scripts + [x], name) ==
            Kept(scripts, name) + (if Strings.Includes(x.src, name) then [] else [x])
  {
    if scripts != [] {
      assert (scripts + [x])[1..] == scripts[1..] + [x];
      KeptAppend(scripts[1..], x, name);
    } else {
      assert [x][1..] == [];
    }
  }

  lemma AnyIncludesAppend(scripts: seq<ScriptNode>, x: ScriptNode, name: string)
    ensures AnyIncludes(scripts + [x], name) == (AnyIncludes(scripts, name) || Strings.Includes(x.src, name))
  {
    var s := scripts + [x];
    if AnyIncludes(s, name) && !Strings.Includes(x.src, name) {
      var k :| 0 <= k < |s| && Strings.Includes(s[k].src, name);
      assert k < |scripts| && s[k] == scripts[k];
    }
    if AnyIncludes(scripts, name) {
      var k :| 0 <= k < |scripts| && Strings.Includes(scripts[k].src, name);
      assert s[k] == scripts[k];
    }
    assert s[|scripts|] == x;
  }

  /**
    One step of a removal pass over a snapshot `s` of the scripts: the
    document holds what survived `s[..i]` followed by `s[i..]`; removing
    `s[i]` when it matches (it sits right after the survivors) gives the
    same shape for `i + 1`.
   */
  lemma RemovalStep(s: seq<ScriptNode>, i: nat, name: string)
    requires i < |s|
    ensures var kept := Kept(s[..i], name);
            var current := kept + s[i..];
            |kept| < |current| &&
            (if Strings.Includes(s[i].src, name) then current[..|kept|] + current[|kept| + 1..] else current)
              == Kept(s[..i + 1], name) + s[i + 1..]
    ensures AnyIncludes(s[..i + 1], name) == (AnyIncludes(s[..i], name) || Strings.Includes(s[i].src, name))
  {
    var kept := Kept(s[..i], name);
    assert s[..i + 1] == s[..i] + [s[i]];
    assert s[i..] == [s[i]] + s[i + 1..];
    KeptAppend(s[..i], s[i], name);
    AnyIncludesAppend(s[..i], s[i], name);
    var current := kept + s[i..];
    if Strings.Includes(s[i].src, name) {
      assert current[..|kept|] == kept;
      assert current[|kept| + 1..] == s[i + 1..];
    } else {
      assert current == (kept + [s[i]]) + s[i + 1..];
    }
  }

  /** Something is removed exactly when some script matches. */
  lemma {:induction false} KeptShrinksIffMatch(scripts: seq<ScriptNode>, name: string)
    ensures |Kept(scripts, name)| < |scripts| <==> AnyIncludes(scripts, name)
  {
    if scripts != [] {
      KeptShrinksIffMatch(scripts[1..], name);
      if AnyIncludes(scripts[1..], name) {
        var k :| 0 <= k < |scripts[1..]| && Strings.Includes(scripts[1..][k].src, name);
        assert Strings.Includes(scripts[k + 1].src, name);
      }
      if AnyIncludes(scripts, name) && !Strings.Includes(scripts[0].src, name) {
        var k :| 0 <= k < |scripts| && Strings.Includes(scripts[k].src, name);
        assert k > 0 && Strings.Includes(scripts[1..][k - 1].src, name);
      }
    }
  }

  /** Some script matches exactly when some member of the list matches. */
  lemma AnyIncludesMember(scripts: seq<ScriptNode>, name: string)
    ensures AnyIncludes(scripts, name) <==> exists x :: x in scripts && Strings.Includes(x.src, name)
  {
    if exists x :: x in scripts && Strings.Includes(x.src, name) {
      var x :| x in scripts && Strings.Includes(x.src, name);
      var k :| 0 <= k < |scripts| && scripts[k] == x;
    }
  }

  /** When no script matches, nothing is removed. */
  lemma {:induction false} KeptAllWhenNoMatch(scripts: seq<ScriptNode>, name: string)
    requires !AnyIncludes(scripts, name)
    ensures Kept(scripts, name) == scripts
  {
    if scripts != [] {
      assert !Strings.Includes(scripts[0].src, name);
      assert !AnyIncludes(scripts[1..], name) by {
        forall k | 0 <= k < |scripts[1..]| ensures !Strings.Includes(scripts[1..][k].src, name) {
          assert scripts[1..][k] == scripts[k + 1];
        }
      }
      KeptAllWhenNoMatch(scripts[1..], name);
      assert [scripts[0]] + scripts[1..] == scripts;
    }
  }

  /** The empty name is included in every `src`, so it removes every script. */
  lemma EmptyNameRemovesAll(scripts: seq<ScriptNode>)
    ensures Kept(scripts, "") == []
    ensures scripts != [] ==> AnyIncludes(scripts, "")
  {
    forall x | x in scripts ensures Strings.Includes(x.src, "") {
      Strings.IncludesEmpty(x.src);
    }
    if scripts != [] {
      Strings.IncludesEmpty(scripts[0].src);
    }
  }

  /** The document, reduced to its `<script>` elements in document order. */
  class Document {
    var scripts: seq<ScriptNode>

    constructor (scripts: seq<ScriptNode>)
      ensures this.scripts == scripts
    {
      this.scripts := scripts;
    }

    /** `script.parentNode.removeChild(script)` for the script at `index`. */
    method RemoveScriptAt(index: nat)
      requires index < |scripts|
      modifies this
      ensures scripts == old(scripts[..index] + scripts[index + 1..])
    {
      scripts := scripts[..index] + scripts[index + 1..];
    }
  }
}
