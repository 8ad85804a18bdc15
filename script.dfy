/**
  Script: script injection, one at a time or chained, and removal of
  external scripts by partial `src` match.
 */
module Script {
  import opened Js
  import Strings
  import Dom
  import Collect

  const InjectFailed := "Failed to inject script."
  const NothingToInject := "Neither url or script was specified."
  const BulkFailed := "Failed to inject scripts in bulk."

  /** The `text/javascript` element for a non-empty url (its `src`) or, failing that, the text (its body). */
  function ScriptFor(url: string, text: string): Dom.Element
  {
    if url != "" then Dom.ScriptElement("text/javascript", url, "")
    else Dom.ScriptElement("text/javascript", "", text)
  }

  function InjectUnwrapped(p: Dom.InjectParameters): Result<Dom.Injected>
  {
    if |p.url| == 0 && |p.text| == 0 then Err(Error(NothingToInject))
    else
      match Dom.ParseLocation(p.location)
      case None => Err(Error("Invalid location, " + p.location + "."))
      case Some(location) => Ok(Dom.Injected(ScriptFor(p.url, p.text), location, p.wait))
  }

  /**
    `Script.inject`: fails when url and text are both empty (checked first)
    or the location is neither 'head' nor 'body'; otherwise appends a
    `text/javascript` script carrying the url as `src` or, without a url,
    the text as its body. Every failure is wrapped as 'Failed to inject script.'.
   */
  function Inject(p: Dom.InjectParameters): (r: Result<Dom.Injected>)
    ensures r.Err? <==> (p.url == "" && p.text == "") || Dom.ParseLocation(p.location).None?
    ensures r.Err? ==> r.error.Wrapped? && r.error.message == InjectFailed
    ensures p.url == "" && p.text == "" ==> r == Err(Wrapped(InjectFailed, Error(NothingToInject)))
    ensures (p.url != "" || p.text != "") && Dom.ParseLocation(p.location).None? ==>
              r == Err(Wrapped(InjectFailed, Error("Invalid location, " + p.location + ".")))
    ensures r.Ok? ==> Dom.ParseLocation(p.location) == Some(r.value.location) && r.value.awaitsLoad == p.wait
    ensures r.Ok? ==> r.value.element.ScriptElement? && r.value.element.scriptType == "text/javascript"
    ensures r.Ok? && p.url != "" ==> r.value.element.src == p.url && r.value.element.innerHTML == ""
    ensures r.Ok? && p.url == "" ==> r.value.element.src == "" && r.value.element.innerHTML == p.text
  {
    WrapErr(InjectUnwrapped(p), InjectFailed)
  }

  /** One link of the chain: inject, then wait for the load event when asked to. */
  function InjectStep(loaded: Dom.LoadOracle, p: Dom.InjectParameters): Settlement<Dom.Loaded>
  {
    match Inject(p)
    case Err(e) => Rejected(e)
    case Ok(injected) =>
      if !injected.awaitsLoad then Resolved(Dom.ElementValue(injected.element))
      else if loaded(injected.element) then Resolved(Dom.LoadEvent(injected.element))
      // `onerror` throws inside the event handler: the promise never settles.
      else Pending
  }

  /** `Script.injectArray`: the scripts are injected strictly one after another, stopping at the first failure. */
  method InjectArray(ps: seq<Dom.InjectParameters>, loaded: Dom.LoadOracle)
    returns (r: Settlement<seq<Dom.Loaded>>)
    ensures r == WrapRejection(Collect.Chain(loaded, ps, InjectStep), BulkFailed)
    ensures r.Resolved? ==>
              |r.value| == |ps| &&
              forall k :: 0 <= k < |ps| ==> InjectStep(loaded, ps[k]) == Resolved(r.value[k])
    ensures r.Rejected? ==> r.reason.Wrapped? && r.reason.message == BulkFailed
  {
    var elements: seq<Dom.Loaded> := [];
    var i := 0;
    while i < |ps|
      invariant 0 <= i <= |ps| && |elements| == i
      invariant forall k :: 0 <= k < i ==> InjectStep(loaded, ps[k]) == Resolved(elements[k])
    {
      var injected := Inject(ps[i]);
      if injected.Err? {
        Collect.ChainStopsAt(loaded, ps, InjectStep, i);
        return Rejected(Wrapped(BulkFailed, injected.error));
      }
      var element := injected.value.element;
      if injected.value.awaitsLoad && !loaded(element) {
        Collect.ChainStopsAt(loaded, ps, InjectStep, i);
        return Pending;
      }
      elements := elements + [if injected.value.awaitsLoad then Dom.LoadEvent(element) else Dom.ElementValue(element)];
      i := i + 1;
    }
    Collect.ChainResolved(loaded, ps, InjectStep, elements);
    r := Resolved(elements);
  }

  /** The script `url` becomes, and whether it loads. */
  predicate LoadsFrom(loaded: Dom.LoadOracle, url: string)
  {
    url != "" && loaded(ScriptFor(url, ""))
  }

  /**
    `Script.injectArrayHeadUrlWait`: every URL becomes a head script whose
    load is awaited before the next one is injected. The chain fulfils with
    the load events in order when every URL is non-empty and loads; it is
    rejected when an empty URL comes before any script that fails to load;
    a script that fails to load first leaves it pending for ever.
   */
  method InjectArrayHeadUrlWait(urls: seq<string>, loaded: Dom.LoadOracle)
    returns (r: Settlement<seq<Dom.Loaded>>)
    ensures r.Resolved? <==> forall k :: 0 <= k < |urls| ==> LoadsFrom(loaded, urls[k])
    ensures r.Resolved? ==>
              |r.value| == |urls| &&
              forall k :: 0 <= k < |urls| ==> r.value[k] == Dom.LoadEvent(ScriptFor(urls[k], ""))
    ensures r.Rejected? <==>
              exists k :: 0 <= k < |urls| && urls[k] == "" && forall j :: 0 <= j < k ==> LoadsFrom(loaded, urls[j])
    ensures r.Rejected? ==> r.reason == Wrapped(BulkFailed, Wrapped(InjectFailed, Error(NothingToInject)))
  {
    var ps := Dom.HeadUrlParameters(urls, true);
    r := InjectArray(ps, loaded);
    if forall k :: 0 <= k < |urls| ==> LoadsFrom(loaded, urls[k]) {
      var events := seq(|urls|, k requires 0 <= k < |urls| => Dom.LoadEvent(ScriptFor(urls[k], "")));
      Collect.ChainResolved(loaded, ps, InjectStep, events);
    } else {
      var j :| 0 <= j < |urls| && !LoadsFrom(loaded, urls[j]);
      assert !InjectStep(loaded, ps[j]).Resolved?;
      var k := Collect.FirstUnresolved(loaded, ps, InjectStep);
      Collect.ChainStopsAt(loaded, ps, InjectStep, k);
      forall i | 0 <= i < k ensures LoadsFrom(loaded, urls[i]) {
        assert InjectStep(loaded, ps[i]).Resolved?;
      }
      if urls[k] != "" {
        forall k' | 0 <= k' < |urls| && urls[k'] == ""
          ensures exists i :: 0 <= i < k' && !LoadsFrom(loaded, urls[i])
        {
          assert !LoadsFrom(loaded, urls[k]);
        }
      }
    }
  }

  /* ---------- removeExternal, removeExternalArray ---------- */

  /**
    `Script.removeExternal`: removes every script whose `src` includes
    `scriptName`, and reports whether any did.
   */
  method RemoveExternal(doc: Dom.Document, scriptName: string) returns (removed: bool)
    modifies doc
    ensures removed == Dom.AnyIncludes(old(doc.scripts), scriptName)
    ensures doc.scripts == Dom.Kept(old(doc.scripts), scriptName)
  {
    var scripts := doc.scripts;
    removed := false;
    for i := 0 to |scripts|
      invariant doc.scripts == Dom.Kept(scripts[..i], scriptName) + scripts[i..]
      invariant removed == Dom.AnyIncludes(scripts[..i], scriptName)
    {
      Dom.RemovalStep(scripts, i, scriptName);
      ghost var next := Dom.Kept(scripts[..i + 1], scriptName) + scripts[i + 1..];
      ghost var nowRemoved := Dom.AnyIncludes(scripts[..i + 1], scriptName);
      var containsScriptName := Strings.Includes(scripts[i].src, scriptName);
      assert nowRemoved == (removed || containsScriptName);
      if containsScriptName {
        doc.RemoveScriptAt(|Dom.Kept(scripts[..i], scriptName)|);
        removed := true;
      }
      assert doc.scripts == next && removed == nowRemoved;
    }
    assert scripts[..|scripts|] == scripts;
  }

  /** One entry of the `removeExternalArray` report. */
  datatype Removal = Removal(scriptName: string, removed: bool)

  /** The scripts left after removing, name after name, every script matching one of `names`. */
  function Remaining(scripts: seq<Dom.ScriptNode>, names: seq<string>): seq<Dom.ScriptNode>
  {
    if names == [] then scripts
    else Dom.Kept(Remaining(scripts, names[..|names| - 1]), names[|names| - 1])
  }

  /** The report of removing `names` in order: each name removes only what earlier names left. */
  function Removals(scripts: seq<Dom.ScriptNode>, names: seq<string>): seq<Removal>
  {
    if names == [] then []
    else
      var earlier := names[..|names| - 1];
      var name := names[|names| - 1];
      Removals(scripts, earlier) + [Removal(name, Dom.AnyIncludes(Remaining(scripts, earlier), name))]
  }

  /** `Script.removeExternalArray`: one report entry per name, in order, removing as it goes. */
  method RemoveExternalArray(doc: Dom.Document, names: seq<string>) returns (results: seq<Removal>)
    modifies doc
    ensures results == Removals(old(doc.scripts), names)
    ensures doc.scripts == Remaining(old(doc.scripts), names)
  {
    ghost var scripts := doc.scripts;
    results := [];
    for i := 0 to |names|
      invariant doc.scripts == Remaining(scripts, names[..i])
      invariant results == Removals(scripts, names[..i])
    {
      assert names[..i + 1][..i] == names[..i];
      var removed := RemoveExternal(doc, names[i]);
      results := results + [Removal(names[i], removed)];
    }
    assert names[..|names|] == names;
  }

  /** A script survives exactly when its `src` includes none of the names. */
  lemma {:induction false} RemainingMembers(scripts: seq<Dom.ScriptNode>, names: seq<string>, x: Dom.ScriptNode)
    ensures x in Remaining(scripts, names) <==>
            x in scripts && forall k :: 0 <= k < |names| ==> !Strings.Includes(x.src, names[k])
  {
    if names != [] {
      var earlier := names[..|names| - 1];
      RemainingMembers(scripts, earlier, x);
      Dom.KeptMembers(Remaining(scripts, earlier), names[|names| - 1], x);
      assert forall k :: 0 <= k < |earlier| ==> earlier[k] == names[k];
    }
  }

  /** The report has one entry per name, naming it, in input order. */
  lemma {:induction false} RemovalsShape(scripts: seq<Dom.ScriptNode>, names: seq<string>)
    ensures |Removals(scripts, names)| == |names|
    ensures forall k :: 0 <= k < |names| ==> Removals(scripts, names)[k].scriptName == names[k]
  {
    if names != [] {
      RemovalsShape(scripts, names[..|names| - 1]);
    }
  }

  lemma {:induction false} RemovalsPrefix(scripts: seq<Dom.ScriptNode>, names: seq<string>, m: nat)
    requires m <= |names|
    ensures |Removals(scripts, names)| == |names|
    ensures Removals(scripts, names[..m]) == Removals(scripts, names)[..m]
  {
    RemovalsShape(scripts, names);
    if m < |names| {
      var earlier := names[..|names| - 1];
      RemovalsPrefix(scripts, earlier, m);
      assert earlier[..m] == names[..m];
    } else {
      assert names[..m] == names;
    }
  }

  /**
    Entry `k` reports a removal exactly when some script matches `names[k]`
    and none of the earlier names (which would have removed it first).
   */
  lemma RemovedIff(scripts: seq<Dom.ScriptNode>, names: seq<string>, k: nat)
    requires k < |names|
    ensures |Removals(scripts, names)| == |names|
    ensures Removals(scripts, names)[k].removed <==>
            exists x :: x in scripts && Strings.Includes(x.src, names[k]) &&
                        forall j :: 0 <= j < k ==> !Strings.Includes(x.src, names[j])
  {
    var rest := Remaining(scripts, names[..k]);
    RemovalAt(scripts, names, k);
    Dom.AnyIncludesMember(rest, names[k]);
    forall x ensures x in rest <==> x in scripts && forall j :: 0 <= j < k ==> !Strings.Includes(x.src, names[j]) {
      RemainingMembers(scripts, names[..k], x);
    }
  }

  /** Entry `k` reports whether anything the earlier names left matches `names[k]`. */
  lemma RemovalAt(scripts: seq<Dom.ScriptNode>, names: seq<string>, k: nat)
    requires k < |names|
    ensures |Removals(scripts, names)| == |names|
    ensures Removals(scripts, names)[k] == Removal(names[k], Dom.AnyIncludes(Remaining(scripts, names[..k]), names[k]))
  {
    RemovalsPrefix(scripts, names, k + 1);
    assert names[..k + 1][..k] == names[..k];
  }

  /** A call that matches nothing leaves the document as it was. */
  lemma NothingRemovedKeepsAll(scripts: seq<Dom.ScriptNode>, name: string)
    ensures !Dom.AnyIncludes(scripts, name) <==> Dom.Kept(scripts, name) == scripts
  {
    Dom.KeptShrinksIffMatch(scripts, name);
    if !Dom.AnyIncludes(scripts, name) {
      Dom.KeptAllWhenNoMatch(scripts, name);
    }
  }
}
