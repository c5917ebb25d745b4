/**
 * `StepSet.update_preferences`: the patch applied to the browser profile's
 * JSON preference document so that every installed extension is enabled
 * and developer mode is on. The document is modelled after parsing; the
 * file read and write around it are not part of the model.
 */
module Preferences {
  import opened Wrappers
  import opened Strings

  /**
   * A decoded JSON value. Numbers keep their literal text (the patch never
   * inspects them); objects are maps from member name to value.
   */
  datatype Json =
    | JNull
    | JBool(b: bool)
    | JNumber(literal: string)
    | JString(text: string)
    | JArray(items: seq<Json>)
    | JObject(members: map<string, Json>)

  /** How the patch can fail; in every case nothing is written back. */
  datatype PrefError =
    | Unparsable        // json.loads raised: 'Could not parse Preferences file'
    | StructureMissing  // the explicit 'Could not update Preferences file'
    | NotSubscriptable  // Python raised on indexing or assigning into a value that is not an object

  /** `{'developer_mode': True}`. */
  const DeveloperMode := JObject(map["developer_mode" := JBool(true)])

  /** `1`, the state of an enabled extension. */
  const Enabled := JNumber("1")

  /** Python's `key in v` on a decoded JSON value: a member test, a list membership, a substring test, or a TypeError. */
  function Contains(v: Json, key: string): (r: Result<bool, PrefError>)
    ensures r.Success? <==> v.JObject? || v.JArray? || v.JString?
    ensures v.JObject? ==> r == Success(key in v.members)
  {
    match v
    case JObject(m) => Success(key in m)
    case JArray(items) => Success(JString(key) in items)
    case JString(text) => Success(IsSubstring(key, text))
    case _ => Failure(NotSubscriptable)
  }

  /** One settings entry after `entry['state'] = 1`. */
  function EnableEntry(entry: Json): Json
    requires entry.JObject?
  {
    JObject(entry.members["state" := Enabled])
  }

  /**
   * The `for key in settings: settings[key]['state'] = 1` loop as a whole:
   * over an object every entry must itself be an object; over a list or a
   * string the loop body raises as soon as it runs, so only an empty one
   * passes unchanged; anything else is not iterable.
   */
  function EnableAll(settings: Json): (r: Result<Json, PrefError>)
    ensures r.Success? && settings.JObject? ==>
      && r.value.JObject?
      && r.value.members.Keys == settings.members.Keys
      && forall key :: key in settings.members ==>
           var entry := r.value.members[key];
           entry.JObject? && "state" in entry.members && entry.members["state"] == Enabled
    ensures r.Success? && !settings.JObject? ==> r.value == settings
  {
    match settings
    case JObject(entries) =>
      if forall key :: key in entries ==> entries[key].JObject? then
        Success(JObject(map key | key in entries :: EnableEntry(entries[key])))
      else Failure(NotSubscriptable)
    case JArray(items) => if items == [] then Success(settings) else Failure(NotSubscriptable)
    case JString(text) => if text == [] then Success(settings) else Failure(NotSubscriptable)
    case _ => Failure(NotSubscriptable)
  }

  /**
   * The whole of `update_preferences` on the parsed file (None when it did
   * not parse): the document to write back, or the exception raised.
   */
  function Patched(parsed: Option<Json>): (r: Result<Json, PrefError>)
    ensures r.Success? ==>
      && parsed.Some? && parsed.value.JObject? && r.value.JObject?
      && r.value.members.Keys == parsed.value.members.Keys
      && "extensions" in r.value.members
      && var extensions := r.value.members["extensions"];
      && extensions.JObject?
      && "ui" in extensions.members && extensions.members["ui"] == DeveloperMode
  {
    match parsed
    case None => Failure(Unparsable)
    case Some(data) =>
      var hasExtensions :- Contains(data, "extensions");
      if !hasExtensions then Failure(StructureMissing)
      else if !data.JObject? then Failure(NotSubscriptable)
      else
        var extensions := data.members["extensions"];
        var hasSettings :- Contains(extensions, "settings");
        if !hasSettings then Failure(StructureMissing)
        else if !extensions.JObject? then Failure(NotSubscriptable)
        else
          var settings :- EnableAll(extensions.members["settings"]);
          var patched := extensions.members["ui" := DeveloperMode]["settings" := settings];
          Success(JObject(data.members["extensions" := JObject(patched)]))
  }

  /** The shape the patch accepts, stated without Python's operators. */
  predicate Patchable(data: Json) {
    && data.JObject?
    && "extensions" in data.members
    && var extensions := data.members["extensions"];
    && extensions.JObject?
    && "settings" in extensions.members
    && match extensions.members["settings"]
       case JObject(entries) => forall key :: key in entries ==> entries[key].JObject?
       case JArray(items) => items == []
       case JString(text) => text == []
       case _ => false
  }

  /**
   * The patch succeeds exactly on a parsed object whose `extensions` member
   * is an object with a `settings` member made of objects (or an empty list
   * or string, over which the loop does nothing). A document without
   * `extensions`, or whose `extensions` object lacks `settings`, is refused
   * with the explicit error; a file that does not parse with its own.
   */
  lemma PatchedSucceedsIff(parsed: Option<Json>)
    ensures Patched(parsed).Success? <==> parsed.Some? && Patchable(parsed.value)
    ensures parsed.None? ==> Patched(parsed) == Failure(Unparsable)
    ensures parsed.Some? && parsed.value.JObject? && "extensions" !in parsed.value.members
      ==> Patched(parsed) == Failure(StructureMissing)
    ensures parsed.Some? && parsed.value.JObject? && "extensions" in parsed.value.members
      && parsed.value.members["extensions"].JObject?
      && "settings" !in parsed.value.members["extensions"].members
      ==> Patched(parsed) == Failure(StructureMissing)
  {
  }

  /**
   * What a successful patch writes: `extensions.ui` is exactly
   * `{developer_mode: true}` (earlier `ui` fields are dropped); every entry
   * of `extensions.settings` has `state` 1 and keeps its other fields; no
   * entry is added or removed; every other member of the document and of
   * `extensions` is unchanged.
   */
  lemma PatchedEffect(data: Json)
    requires Patched(Some(data)).Success?
    ensures var out := Patched(Some(data)).value;
      && out.JObject? && data.JObject?
      && out.members.Keys == data.members.Keys
      && (forall k :: k in data.members && k != "extensions" ==> out.members[k] == data.members[k])
      && var ext, ext' := data.members["extensions"], out.members["extensions"];
      && ext.JObject? && ext'.JObject?
      && ext'.members.Keys == ext.members.Keys + {"ui"}
      && ext'.members["ui"] == DeveloperMode
      && (forall k :: k in ext.members && k != "ui" && k != "settings" ==> ext'.members[k] == ext.members[k])
      && var settings, settings' := ext.members["settings"], ext'.members["settings"];
      && (settings.JObject? ==>
            && settings'.JObject?
            && settings'.members.Keys == settings.members.Keys
            && forall key :: key in settings.members ==>
                 && settings.members[key].JObject? && settings'.members[key].JObject?
                 && settings'.members[key].members.Keys == settings.members[key].members.Keys + {"state"}
                 && settings'.members[key].members["state"] == Enabled
                 && forall f :: f in settings.members[key].members && f != "state" ==>
                      settings'.members[key].members[f] == settings.members[key].members[f])
      && (!settings.JObject? ==> settings' == settings)
  {
    PatchedSucceedsIff(Some(data));
  }

  /** Enabling entries that are already enabled changes nothing. */
  lemma EnableAllIdempotent(settings: Json)
    requires EnableAll(settings).Success?
    ensures EnableAll(EnableAll(settings).value) == EnableAll(settings)
  {
    if settings.JObject? {
      var entries := settings.members;
      var entries' := EnableAll(settings).value.members;
      forall key | key in entries'
        ensures entries'[key].JObject? && EnableEntry(entries'[key]) == entries'[key]
      {
        var fields := entries[key].members;
        assert entries'[key] == JObject(fields["state" := Enabled]);
        assert fields["state" := Enabled]["state" := Enabled] == fields["state" := Enabled];
      }
      assert (map key | key in entries' :: EnableEntry(entries'[key])) == entries';
    }
  }

  /** Patching an already patched document changes nothing more. */
  lemma PatchedIdempotent(data: Json)
    requires Patched(Some(data)).Success?
    ensures Patched(Some(Patched(Some(data)).value)) == Patched(Some(data))
  {
    var out := Patched(Some(data)).value;
    var ext := data.members["extensions"];
    var settings := EnableAll(ext.members["settings"]).value;
    var fields := ext.members["ui" := DeveloperMode]["settings" := settings];
    assert out == JObject(data.members["extensions" := JObject(fields)]);
    assert out.members["extensions"] == JObject(fields);
    assert Contains(out, "extensions") == Success(true);
    assert Contains(JObject(fields), "settings") == Success(true);
    EnableAllIdempotent(ext.members["settings"]);
    assert EnableAll(fields["settings"]) == Success(settings);
    assert fields["ui" := DeveloperMode]["settings" := settings] == fields;
    assert out.members["extensions" := JObject(fields)] == out.members;
  }

  /**
   * The loop `for key in settings: settings[key]['state'] = 1` over an
   * object, one entry at a time: it raises at the first entry that is not
   * an object, otherwise it has enabled every entry.
   */
  method EnableEntries(entries: map<string, Json>) returns (r: Result<Json, PrefError>)
    ensures r == EnableAll(JObject(entries))
  {
    var todo := entries.Keys;
    var done := entries;
    while todo != {}
      invariant todo <= entries.Keys
      invariant done.Keys == entries.Keys
      invariant forall key :: key in todo ==> done[key] == entries[key]
      invariant forall key :: key in entries && key !in todo ==>
                  entries[key].JObject? && done[key] == EnableEntry(entries[key])
      decreases todo
    {
      var key :| key in todo;
      if !done[key].JObject? {
        return Failure(NotSubscriptable);
      }
      done := done[key := EnableEntry(done[key])];
      todo := todo - {key};
    }
    assert done == map key | key in entries :: EnableEntry(entries[key]);
    return Success(JObject(done));
  }

  /**
   * `update_preferences` step by step as the source does it: check the
   * structure, overwrite `extensions.ui`, then set `state` on each settings
   * entry in turn. It computes exactly `Patched`.
   */
  method UpdatePreferences(parsed: Option<Json>) returns (r: Result<Json, PrefError>)
    ensures r == Patched(parsed)
  {
    if parsed.None? {
      return Failure(Unparsable);
    }
    var data := parsed.value;
    var hasExtensions := Contains(data, "extensions");
    if hasExtensions.Failure? {
      return Failure(hasExtensions.error);
    }
    if !hasExtensions.value {
      return Failure(StructureMissing);
    }
    if !data.JObject? {
      return Failure(NotSubscriptable);
    }
    var extensions := data.members["extensions"];
    var hasSettings := Contains(extensions, "settings");
    if hasSettings.Failure? {
      return Failure(hasSettings.error);
    }
    if !hasSettings.value {
      return Failure(StructureMissing);
    }
    if !extensions.JObject? {
      return Failure(NotSubscriptable);
    }
    var fields := extensions.members["ui" := DeveloperMode];
    var settings := fields["settings"];
    match settings {
      case JObject(entries) =>
        var enabled := EnableEntries(entries);
        if enabled.Failure? {
          return Failure(enabled.error);
        }
        settings := enabled.value;
      case JArray(items) =>
        if items != [] {
          return Failure(NotSubscriptable);
        }
      case JString(text) =>
        if text != [] {
          return Failure(NotSubscriptable);
        }
      case _ =>
        return Failure(NotSubscriptable);
    }
    fields := fields["settings" := settings];
    return Success(JObject(data.members["extensions" := JObject(fields)]));
  }
}
