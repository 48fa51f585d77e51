/**
 * The watch extension's complication rendering round trip: the payload that
 * asks the server to render the text areas of active complications, the merge
 * of the rendered text back into the stored complications, the background URL
 * session that carries the request (restarted after 10 minutes), and the
 * device model name read from the machine bytes.
 */
module WatchExtension {
  import opened Wrappers

  /** A value inside a stored text area dictionary. */
  datatype AreaValue = BoolValue(b: bool) | StringValue(s: string) | OtherValue

  /** A text area of a complication's configuration: field name to value. */
  type TextArea = map<string, AreaValue>

  /**
   * A stored `WatchComplication`: its family and template raw values and its
   * `textAreas` entry, which is `None` when it is absent or not a dictionary
   * of dictionaries.
   */
  datatype WatchComplication = WatchComplication(family: string, template: string, textAreas: Option<map<string, TextArea>>)

  /** `textNeedsRender` is present, a `Bool`, and true. */
  predicate NeedsRender(area: TextArea) {
    "textNeedsRender" in area && area["textNeedsRender"] == BoolValue(true)
  }

  /** `textArea["text"] as? String`. */
  function TextOf(area: TextArea): Option<string> {
    if "text" in area && area["text"].StringValue? then Some(area["text"].s) else None
  }

  function Lookup(templates: map<string, map<string, string>>, t: string): map<string, string> {
    if t in templates then templates[t] else map[]
  }

  /** The keys among `done` whose area needs rendering. */
  function RenderKeys(areas: map<string, TextArea>, done: set<string>): set<string>
    requires done <= areas.Keys
  {
    set k | k in done && NeedsRender(areas[k])
  }

  /**
   * One template's text map once the areas in `done` were visited: a visited
   * area that needs rendering sets its key to its text, or removes the key
   * when the text is not a string; other keys keep their value.
   */
  function MergeAreas(inner: map<string, string>, areas: map<string, TextArea>, done: set<string>): map<string, string>
    requires done <= areas.Keys
  {
    var keys := RenderKeys(areas, done);
    map k | k in inner.Keys + keys && (k in keys ==> TextOf(areas[k]).Some?)
      :: if k in RenderKeys(areas, done) then TextOf(areas[k]).value else inner[k]
  }

  /** The templates map once the inner loop visited `done` of one complication's areas. */
  function ApplyAreas(templates: map<string, map<string, string>>, t: string, areas: map<string, TextArea>,
    done: set<string>): map<string, map<string, string>>
    requires done <= areas.Keys
  {
    if RenderKeys(areas, done) == {} then templates
    else templates[t := MergeAreas(Lookup(templates, t), areas, done)]
  }

  /** The templates map after the outer loop visited the complications `cs`. */
  function RenderTemplates(cs: seq<WatchComplication>, active: seq<string>): map<string, map<string, string>> {
    if cs == [] then map[]
    else
      var before := RenderTemplates(cs[..|cs| - 1], active);
      var c := cs[|cs| - 1];
      if c.family in active && c.textAreas.Some? then
        ApplyAreas(before, c.template, c.textAreas.value, c.textAreas.value.Keys)
      else before
  }

  /** The request body `makeHTTPPayload` serialises. */
  datatype RenderPayload = RenderPayload(kind: string, templates: map<string, map<string, string>>)

  /**
   * Every template in the payload belongs to an active complication, and
   * every text in it is the text of an area of such a complication that
   * needs rendering.
   */
  lemma {:induction false} RenderTemplatesSound(cs: seq<WatchComplication>, active: seq<string>)
    ensures forall t | t in RenderTemplates(cs, active) ::
      exists c :: c in cs && c.template == t && c.family in active && c.textAreas.Some?
    ensures forall t, k | t in RenderTemplates(cs, active) && k in RenderTemplates(cs, active)[t] ::
      exists c :: c in cs && c.template == t && c.family in active && c.textAreas.Some?
        && k in c.textAreas.value && NeedsRender(c.textAreas.value[k])
        && TextOf(c.textAreas.value[k]) == Some(RenderTemplates(cs, active)[t][k])
  {
    if cs != [] {
      var init, c := cs[..|cs| - 1], cs[|cs| - 1];
      RenderTemplatesSound(init, active);
      assert cs == init + [c];
      var before := RenderTemplates(init, active);
      var after := RenderTemplates(cs, active);
      forall t | t in after
        ensures exists c' :: c' in cs && c'.template == t && c'.family in active && c'.textAreas.Some?
      {
        if t !in before {
          assert c in cs;
        } else {
          var c' :| c' in init && c'.template == t && c'.family in active && c'.textAreas.Some?;
          assert c' in cs;
        }
      }
      forall t, k | t in after && k in after[t]
        ensures exists c' ::
          && c' in cs && c'.template == t && c'.family in active && c'.textAreas.Some?
          && k in c'.textAreas.value && NeedsRender(c'.textAreas.value[k])
          && TextOf(c'.textAreas.value[k]) == Some(after[t][k])
      {
        if c.family in active && c.textAreas.Some? && t == c.template
          && k in RenderKeys(c.textAreas.value, c.textAreas.value.Keys) {
          assert c in cs;
        } else {
          assert t in before && k in before[t] && after[t][k] == before[t][k];
          var c' :| c' in init && c'.template == t && c'.family in active && c'.textAreas.Some?
            && k in c'.textAreas.value && NeedsRender(c'.textAreas.value[k])
            && TextOf(c'.textAreas.value[k]) == Some(before[t][k]);
          assert c' in cs;
        }
      }
    }
  }

  /**
   * The areas of the last active complication that need rendering and carry
   * a text are all in the payload under its template, with that text.
   */
  lemma LastComplicationRendered(cs: seq<WatchComplication>, active: seq<string>, k: string)
    requires cs != [] && cs[|cs| - 1].family in active && cs[|cs| - 1].textAreas.Some?
    requires k in cs[|cs| - 1].textAreas.value
    requires NeedsRender(cs[|cs| - 1].textAreas.value[k]) && TextOf(cs[|cs| - 1].textAreas.value[k]).Some?
    ensures cs[|cs| - 1].template in RenderTemplates(cs, active)
    ensures k in RenderTemplates(cs, active)[cs[|cs| - 1].template]
    ensures RenderTemplates(cs, active)[cs[|cs| - 1].template][k] == TextOf(cs[|cs| - 1].textAreas.value[k]).value
  {
    var areas := cs[|cs| - 1].textAreas.value;
    assert k in RenderKeys(areas, areas.Keys);
  }

  /** Inactive complications and complications without text areas add nothing to the payload. */
  lemma SkippedComplication(cs: seq<WatchComplication>, active: seq<string>, c: WatchComplication)
    requires c.family !in active || c.textAreas.None?
    ensures RenderTemplates(cs + [c], active) == RenderTemplates(cs, active)
  {
    assert (cs + [c])[..|cs + [c]| - 1] == cs;
  }

  lemma MergeAreasNothingVisited(inner: map<string, string>, areas: map<string, TextArea>, done: set<string>)
    requires done <= areas.Keys && RenderKeys(areas, done) == {}
    ensures MergeAreas(inner, areas, done) == inner
  {
  }

  lemma MergeAreasStep(inner: map<string, string>, areas: map<string, TextArea>, done: set<string>, key: string)
    requires done <= areas.Keys && key in areas && key !in done && NeedsRender(areas[key])
    ensures var m := MergeAreas(inner, areas, done);
      MergeAreas(inner, areas, done + {key})
        == if TextOf(areas[key]).Some? then m[key := TextOf(areas[key]).value] else m - {key}
  {
    var m := MergeAreas(inner, areas, done);
    var a := MergeAreas(inner, areas, done + {key});
    var b := if TextOf(areas[key]).Some? then m[key := TextOf(areas[key]).value] else m - {key};
    assert RenderKeys(areas, done + {key}) == RenderKeys(areas, done) + {key};
    assert forall k :: k in a <==> k in b;
    assert forall k | k in a :: a[k] == b[k];
  }

  lemma ApplyAreasStep(templates: map<string, map<string, string>>, t: string, areas: map<string, TextArea>,
    done: set<string>, key: string)
    requires done <= areas.Keys && key in areas && key !in done
    ensures !NeedsRender(areas[key]) ==> ApplyAreas(templates, t, areas, done + {key}) == ApplyAreas(templates, t, areas, done)
    ensures NeedsRender(areas[key]) ==>
      var current := ApplyAreas(templates, t, areas, done);
      var inner := Lookup(current, t);
      ApplyAreas(templates, t, areas, done + {key})
        == current[t := if TextOf(areas[key]).Some? then inner[key := TextOf(areas[key]).value] else inner - {key}]
  {
    var done' := done + {key};
    if NeedsRender(areas[key]) {
      assert key in RenderKeys(areas, done');
      MergeAreasStep(Lookup(templates, t), areas, done, key);
      if RenderKeys(areas, done) == {} {
        MergeAreasNothingVisited(Lookup(templates, t), areas, done);
      }
    } else {
      assert RenderKeys(areas, done') == RenderKeys(areas, done);
    }
  }

  /** The rendered texts returned for one template: area key to rendered text. */
  type RenderedTexts = map<string, string>

  /** The index of the first stored complication with template `t`, as the Realm query's `.first`. */
  function FirstWithTemplate(cs: seq<WatchComplication>, t: string): (r: Option<nat>)
    ensures r.Some? ==>
      r.value < |cs| && cs[r.value].template == t
      && forall j :: 0 <= j < r.value ==> cs[j].template != t
    ensures r.None? ==> forall j :: 0 <= j < |cs| ==> cs[j].template != t
  {
    if cs == [] then None
    else if cs[0].template == t then Some(0)
    else
      var rest := FirstWithTemplate(cs[1..], t);
      if rest.Some? then Some(rest.value + 1) else None
  }

  /** `storedAreas[key]!["renderedText"] = text` for each returned key in `done`. */
  function SetRendered(areas: map<string, TextArea>, texts: RenderedTexts, done: set<string>): map<string, TextArea>
    requires done <= texts.Keys
  {
    map k | k in areas :: if k in done then areas[k]["renderedText" := StringValue(texts[k])] else areas[k]
  }

  /** The force unwrap of the merge: every returned key of a template names a stored area. */
  predicate RenderedKeysExist(cs: seq<WatchComplication>, rendered: map<string, RenderedTexts>) {
    forall t | t in rendered && FirstWithTemplate(cs, t).Some? && cs[FirstWithTemplate(cs, t).value].textAreas.Some? ::
      rendered[t].Keys <= cs[FirstWithTemplate(cs, t).value].textAreas.value.Keys
  }

  /**
   * The stored complications once the templates in `done` were merged: the
   * first complication of each such template, when it has text areas, gets
   * the rendered texts.
   */
  function MergeRendered(cs: seq<WatchComplication>, rendered: map<string, RenderedTexts>, done: set<string>): seq<WatchComplication>
    requires done <= rendered.Keys
  {
    seq(|cs|, i requires 0 <= i < |cs| =>
      var t := cs[i].template;
      if t in done && FirstWithTemplate(cs, t) == Some(i) && cs[i].textAreas.Some? then
        cs[i].(textAreas := Some(SetRendered(cs[i].textAreas.value, rendered[t], rendered[t].Keys)))
      else cs[i])
  }

  /**
   * The merge sets `renderedText` on each returned area of the first
   * complication of each template, leaves every other field of those areas,
   * and every other complication, unchanged.
   */
  lemma MergeTouchesOnlyRenderedText(cs: seq<WatchComplication>, rendered: map<string, RenderedTexts>, i: nat)
    requires 0 <= i < |cs|
    ensures |MergeRendered(cs, rendered, rendered.Keys)| == |cs|
    ensures var m := MergeRendered(cs, rendered, rendered.Keys)[i];
      && m.family == cs[i].family && m.template == cs[i].template
      && m.textAreas.Some? == cs[i].textAreas.Some?
      && (cs[i].template !in rendered || FirstWithTemplate(cs, cs[i].template) != Some(i) ==> m == cs[i])
      && (cs[i].textAreas.Some? ==>
           && m.textAreas.value.Keys == cs[i].textAreas.value.Keys
           && forall k | k in cs[i].textAreas.value ::
                m.textAreas.value[k] - {"renderedText"} == cs[i].textAreas.value[k] - {"renderedText"}
                && (cs[i].template in rendered && FirstWithTemplate(cs, cs[i].template) == Some(i)
                    && k in rendered[cs[i].template] ==>
                      m.textAreas.value[k]["renderedText"] == StringValue(rendered[cs[i].template][k])))
  {
  }

  /** A template name with no stored complication leaves the store unchanged. */
  lemma UnknownTemplateSkipped(cs: seq<WatchComplication>, rendered: map<string, RenderedTexts>, t: string)
    requires t in rendered && FirstWithTemplate(cs, t).None?
    ensures MergeRendered(cs, rendered, rendered.Keys) == MergeRendered(cs, rendered, rendered.Keys - {t})
  {
  }

  /** A ten-minute session lifetime, in seconds. */
  const SessionLifetime: int := 600

  /** What the downloaded render response turned out to be. */
  datatype DownloadResult =
    | Unreadable(error: nat)
    | NotTemplateDictionary
    | RenderedTemplates(rendered: map<string, RenderedTexts>)

  /** The machine bytes of `utsname`, as signed 8-bit values. */
  newtype Int8 = x: int | -128 <= x < 128

  /** `getModelName`: the machine bytes reduced into a string, zero bytes skipped. */
  function ModelName(machine: seq<Int8>): (name: string)
    requires forall i :: 0 <= i < |machine| ==> machine[i] >= 0
    ensures |name| <= |machine|
    ensures forall c | c in name :: c != 0 as char
  {
    if machine == [] then ""
    else
      var identifier := ModelName(machine[..|machine| - 1]);
      var value := machine[|machine| - 1];
      if value == 0 then identifier else identifier + [value as int as char]
  }

  /** The non-zero bytes of the machine field, in order. */
  function NonZero(machine: seq<Int8>): seq<Int8> {
    if machine == [] then []
    else (if machine[0] != 0 then [machine[0]] else []) + NonZero(machine[1..])
  }

  /** The model name is the non-zero bytes, in order, each read as a character. */
  lemma {:induction false} ModelNameIsNonZeroBytes(machine: seq<Int8>)
    requires forall i :: 0 <= i < |machine| ==> machine[i] >= 0
    ensures forall i :: 0 <= i < |NonZero(machine)| ==> NonZero(machine)[i] > 0
    ensures |ModelName(machine)| == |NonZero(machine)|
    ensures forall i :: 0 <= i < |ModelName(machine)| ==> ModelName(machine)[i] == NonZero(machine)[i] as int as char
  {
    if machine != [] {
      var init, last := machine[..|machine| - 1], machine[|machine| - 1];
      assert machine == init + [last];
      ModelNameIsNonZeroBytes(init);
      NonZeroAppend(init, last);
    }
  }

  lemma {:induction false} NonZeroAppend(init: seq<Int8>, last: Int8)
    ensures NonZero(init + [last]) == NonZero(init) + (if last != 0 then [last] else [])
  {
    if init == [] {
      assert init + [last] == [last];
    } else {
      assert (init + [last])[1..] == init[1..] + [last];
      NonZeroAppend(init[1..], last);
    }
  }

  /** The watch extension delegate's URL session bookkeeping and the complications it renders. */
  class ExtensionDelegate {
    var backgroundSession: Option<nat>
    var downloadTask: Option<nat>
    /** When the session started, in seconds. */
    var sessionStartTime: Option<int>
    var pendingBackgroundURLTask: Option<nat>
    var sessionError: Option<nat>
    /** The background tasks the delegate has marked completed, in order. */
    var completedTasks: seq<nat>
    /** The sessions it has invalidated, in order. */
    var cancelledSessions: seq<nat>
    /** The stored complications, in the order the Realm query returns them. */
    var complications: seq<WatchComplication>

    constructor (complications: seq<WatchComplication>)
      ensures backgroundSession.None? && downloadTask.None? && sessionStartTime.None?
      ensures pendingBackgroundURLTask.None? && sessionError.None?
      ensures completedTasks == [] && cancelledSessions == [] && this.complications == complications
    {
      backgroundSession := None;
      downloadTask := None;
      sessionStartTime := None;
      pendingBackgroundURLTask := None;
      sessionError := None;
      completedTasks := [];
      cancelledSessions := [];
      this.complications := complications;
    }

    /** `makeHTTPPayload`; `activeFamilies` are the raw values of the active complication families. */
    method MakeHTTPPayload(activeFamilies: seq<string>) returns (payload: RenderPayload)
      ensures payload.kind == "render_complications"
      ensures payload.templates == RenderTemplates(complications, activeFamilies)
    {
      var templates: map<string, map<string, string>> := map[];
      var i := 0;
      while i < |complications|
        invariant 0 <= i <= |complications|
        invariant templates == RenderTemplates(complications[..i], activeFamilies)
      {
        var complication := complications[i];
        assert complications[..i + 1][..i] == complications[..i];
        if complication.family in activeFamilies && complication.textAreas.Some? {
          var textAreas := complication.textAreas.value;
          var remaining := textAreas.Keys;
          ghost var before := templates;
          while remaining != {}
            invariant remaining <= textAreas.Keys
            invariant templates == ApplyAreas(before, complication.template, textAreas, textAreas.Keys - remaining)
            decreases remaining
          {
            var key :| key in remaining;
            ghost var done := textAreas.Keys - remaining;
            ApplyAreasStep(before, complication.template, textAreas, done, key);
            assert done + {key} == textAreas.Keys - (remaining - {key});
            var textArea := textAreas[key];
            if "textNeedsRender" in textArea && textArea["textNeedsRender"] == BoolValue(true) {
              if complication.template !in templates {
                templates := templates[complication.template := map[]];
              }
              var inner := templates[complication.template];
              var text := TextOf(textArea);
              // Assigning nil through the subscript removes the key.
              inner := if text.Some? then inner[key := text.value] else inner - {key};
              templates := templates[complication.template := inner];
            }
            remaining := remaining - {key};
          }
          assert textAreas.Keys - remaining == textAreas.Keys;
        }
        i := i + 1;
      }
      assert complications[..i] == complications;
      payload := RenderPayload("render_complications", templates);
    }

    /** `completePendingURLSessionTask`. */
    method CompletePendingURLSessionTask()
      modifies this
      ensures backgroundSession.None? && downloadTask.None? && sessionStartTime.None?
      ensures pendingBackgroundURLTask.None?
      ensures cancelledSessions == old(cancelledSessions)
        + (if old(backgroundSession).Some? then [old(backgroundSession).value] else [])
      ensures completedTasks == old(completedTasks)
        + (if old(pendingBackgroundURLTask).Some? then [old(pendingBackgroundURLTask).value] else [])
      ensures sessionError == old(sessionError) && complications == old(complications)
    {
      if backgroundSession.Some? {
        cancelledSessions := cancelledSessions + [backgroundSession.value];
      }
      backgroundSession := None;
      downloadTask := None;
      sessionStartTime := None;
      if pendingBackgroundURLTask.Some? {
        completedTasks := completedTasks + [pendingBackgroundURLTask.value];
      }
      pendingBackgroundURLTask := None;
    }

    /**
     * `scheduleURLSessionIfNeeded` at time `now`. `scheduled` is what
     * `scheduleURLSession` yields: a new session and download task, or
     * nothing when no webhook URL or payload is available.
     */
    method ScheduleURLSessionIfNeeded(now: int, scheduled: Option<(nat, nat)>)
      modifies this
      ensures (old(backgroundSession).Some? && old(sessionStartTime).Some?
               && old(sessionStartTime).value + SessionLifetime > now) ==>
        && backgroundSession == old(backgroundSession) && downloadTask == old(downloadTask)
        && sessionStartTime == old(sessionStartTime) && pendingBackgroundURLTask == old(pendingBackgroundURLTask)
        && completedTasks == old(completedTasks) && cancelledSessions == old(cancelledSessions)
      ensures old(backgroundSession).Some? && !(old(sessionStartTime).Some? && old(sessionStartTime).value + SessionLifetime > now) ==>
        && cancelledSessions == old(cancelledSessions) + [old(backgroundSession).value]
        && completedTasks == old(completedTasks)
             + (if old(pendingBackgroundURLTask).Some? then [old(pendingBackgroundURLTask).value] else [])
        && pendingBackgroundURLTask.None?
      ensures !(old(backgroundSession).Some? && old(sessionStartTime).Some? && old(sessionStartTime).value + SessionLifetime > now) ==>
        (scheduled.Some? ==>
           backgroundSession == Some(scheduled.value.0) && downloadTask == Some(scheduled.value.1)
           && sessionStartTime == Some(now))
        && (scheduled.None? && old(backgroundSession).Some? ==>
           backgroundSession.None? && downloadTask.None? && sessionStartTime.None?)
        && (scheduled.None? && old(backgroundSession).None? ==>
           downloadTask == old(downloadTask) && sessionStartTime == old(sessionStartTime)
           && pendingBackgroundURLTask == old(pendingBackgroundURLTask) && backgroundSession.None?)
      ensures old(backgroundSession).None? ==>
        completedTasks == old(completedTasks) && cancelledSessions == old(cancelledSessions)
        && pendingBackgroundURLTask == old(pendingBackgroundURLTask)
      ensures sessionError == old(sessionError) && complications == old(complications)
    {
      if backgroundSession.Some? {
        if sessionStartTime.Some? && sessionStartTime.value + SessionLifetime > now {
          return;
        } else {
          CompletePendingURLSessionTask();
        }
      }
      if scheduled.None? {
        return;
      }
      sessionStartTime := Some(now);
      backgroundSession := Some(scheduled.value.0);
      downloadTask := Some(scheduled.value.1);
    }

    /** `urlSession(_:task:didCompleteWithError:)`. */
    method DidCompleteWithError(error: Option<nat>)
      modifies this
      ensures sessionError == error
      ensures error.Some? ==>
        && backgroundSession.None? && downloadTask.None? && sessionStartTime.None? && pendingBackgroundURLTask.None?
        && completedTasks == old(completedTasks)
             + (if old(pendingBackgroundURLTask).Some? then [old(pendingBackgroundURLTask).value] else [])
        && cancelledSessions == old(cancelledSessions)
             + (if old(backgroundSession).Some? then [old(backgroundSession).value] else [])
      ensures error.None? ==>
        && backgroundSession == old(backgroundSession) && downloadTask == old(downloadTask)
        && sessionStartTime == old(sessionStartTime) && pendingBackgroundURLTask == old(pendingBackgroundURLTask)
        && completedTasks == old(completedTasks) && cancelledSessions == old(cancelledSessions)
      ensures complications == old(complications)
    {
      if error.Some? {
        CompletePendingURLSessionTask();
      }
      sessionError := error;
    }

    /**
     * `urlSession(_:downloadTask:didFinishDownloadingTo:)`: an unreadable
     * response keeps the error and leaves the task pending; otherwise the
     * rendered texts are merged (when the response has the expected shape)
     * and the pending task completed.
     */
    method DidFinishDownloading(result: DownloadResult)
      requires result.RenderedTemplates? ==> RenderedKeysExist(complications, result.rendered)
      modifies this
      ensures result.Unreadable? ==>
        && sessionError == Some(result.error) && complications == old(complications)
        && backgroundSession == old(backgroundSession) && pendingBackgroundURLTask == old(pendingBackgroundURLTask)
        && downloadTask == old(downloadTask) && sessionStartTime == old(sessionStartTime)
        && completedTasks == old(completedTasks) && cancelledSessions == old(cancelledSessions)
      ensures !result.Unreadable? ==>
        && sessionError.None? && backgroundSession.None? && downloadTask.None?
        && sessionStartTime.None? && pendingBackgroundURLTask.None?
        && completedTasks == old(completedTasks)
             + (if old(pendingBackgroundURLTask).Some? then [old(pendingBackgroundURLTask).value] else [])
        && cancelledSessions == old(cancelledSessions)
             + (if old(backgroundSession).Some? then [old(backgroundSession).value] else [])
      ensures result.NotTemplateDictionary? ==> complications == old(complications)
      ensures result.RenderedTemplates? ==>
        complications == MergeRendered(old(complications), result.rendered, result.rendered.Keys)
    {
      sessionError := None;
      if result.Unreadable? {
        sessionError := Some(result.error);
        return;
      }
      if result.RenderedTemplates? {
        complications := MergeRenderedTexts(complications, result.rendered);
      }
      CompletePendingURLSessionTask();
      sessionError := None;
    }
  }

  /** The loop over the returned templates, writing each merge back to the stored complications. */
  method MergeRenderedTexts(stored: seq<WatchComplication>, rendered: map<string, RenderedTexts>)
    returns (complications: seq<WatchComplication>)
    requires RenderedKeysExist(stored, rendered)
    ensures complications == MergeRendered(stored, rendered, rendered.Keys)
  {
    complications := stored;
    var remaining := rendered.Keys;
    while remaining != {}
      invariant remaining <= rendered.Keys
      invariant complications == MergeRendered(stored, rendered, rendered.Keys - remaining)
      decreases remaining
    {
      var templateName :| templateName in remaining;
      ghost var done := rendered.Keys - remaining;
      MergeLookup(stored, rendered, done, templateName);
      var first := FirstWithTemplate(complications, templateName);
      if first.Some? && complications[first.value].textAreas.Some? {
        var index := first.value;
        var storedAreas := RenderedAreas(complications[index].textAreas.value, rendered[templateName]);
        complications := complications[index := complications[index].(textAreas := Some(storedAreas))];
      }
      MergeStep(stored, rendered, done, templateName);
      assert done + {templateName} == rendered.Keys - (remaining - {templateName});
      remaining := remaining - {templateName};
    }
    assert rendered.Keys - remaining == rendered.Keys;
  }

  /** The inner loop of the merge: the rendered text goes into each returned area. */
  method RenderedAreas(storedAreas: map<string, TextArea>, textAreas: RenderedTexts)
    returns (updated: map<string, TextArea>)
    requires textAreas.Keys <= storedAreas.Keys
    ensures updated == SetRendered(storedAreas, textAreas, textAreas.Keys)
  {
    updated := storedAreas;
    var keys := textAreas.Keys;
    while keys != {}
      invariant keys <= textAreas.Keys
      invariant updated == SetRendered(storedAreas, textAreas, textAreas.Keys - keys)
      decreases keys
    {
      var textAreaKey :| textAreaKey in keys;
      updated := updated[textAreaKey := updated[textAreaKey]["renderedText" := StringValue(textAreas[textAreaKey])]];
      keys := keys - {textAreaKey};
    }
  }

  /** Merging keeps every complication's template, so the first-of-template lookups do not move. */
  lemma TemplatesKept(cs: seq<WatchComplication>, rendered: map<string, RenderedTexts>, done: set<string>)
    requires done <= rendered.Keys
    ensures |MergeRendered(cs, rendered, done)| == |cs|
    ensures forall i :: 0 <= i < |cs| ==> MergeRendered(cs, rendered, done)[i].template == cs[i].template
    ensures forall t :: FirstWithTemplate(MergeRendered(cs, rendered, done), t) == FirstWithTemplate(cs, t)
  {
    forall t ensures FirstWithTemplate(MergeRendered(cs, rendered, done), t) == FirstWithTemplate(cs, t) {
      SameTemplatesSameFirst(MergeRendered(cs, rendered, done), cs, t);
    }
  }

  lemma {:induction false} SameTemplatesSameFirst(a: seq<WatchComplication>, b: seq<WatchComplication>, t: string)
    requires |a| == |b| && forall i :: 0 <= i < |a| ==> a[i].template == b[i].template
    ensures FirstWithTemplate(a, t) == FirstWithTemplate(b, t)
  {
    if a != [] && a[0].template != t {
      SameTemplatesSameFirst(a[1..], b[1..], t);
    }
  }

  /** Before a template is merged, its first complication is still as stored, and its returned keys all exist. */
  lemma MergeLookup(cs: seq<WatchComplication>, rendered: map<string, RenderedTexts>, done: set<string>, t: string)
    requires done <= rendered.Keys && t in rendered && t !in done
    requires RenderedKeysExist(cs, rendered)
    ensures FirstWithTemplate(MergeRendered(cs, rendered, done), t) == FirstWithTemplate(cs, t)
    ensures var first := FirstWithTemplate(cs, t);
      first.Some? ==>
        && MergeRendered(cs, rendered, done)[first.value] == cs[first.value]
        && (cs[first.value].textAreas.Some? ==> rendered[t].Keys <= cs[first.value].textAreas.value.Keys)
  {
    TemplatesKept(cs, rendered, done);
  }

  /** Merging one more template changes only its first complication, as the loop body does. */
  lemma MergeStep(cs: seq<WatchComplication>, rendered: map<string, RenderedTexts>, done: set<string>, t: string)
    requires done <= rendered.Keys && t in rendered && t !in done
    ensures var before := MergeRendered(cs, rendered, done);
      var after := MergeRendered(cs, rendered, done + {t});
      var first := FirstWithTemplate(cs, t);
      if first.Some? && cs[first.value].textAreas.Some? then
        after == before[first.value := before[first.value].(textAreas :=
          Some(SetRendered(cs[first.value].textAreas.value, rendered[t], rendered[t].Keys)))]
      else after == before
  {
  }
}
