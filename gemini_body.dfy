/**
 * Construction of the body forwarded to the Gemini `generateContent` endpoint from the
 * client's payload (api/chat.js:42-61): an allow-list of three fields, `history` taking
 * priority over `contents`, and `tools` filtered down to known capabilities.
 */
module GeminiBody {
  import opened Wrappers
  import opened JsValue

  /** The capability names a tool entry may carry as its first key. */
  const KnownTools: seq<string> := ["google_search"]

  /** The only keys the forwarded body can have. */
  const ForwardedKeys: set<string> := {"contents", "systemInstruction", "tools"}

  /** The predicate given to `tools.filter`. */
  predicate KeepTool(tool: Json) {
    && ObjectLike(tool)
    && match FirstKey(tool)
       case Some(k) => k in KnownTools
       case None => false
  }

  /** `tools.filter(KeepTool)`. */
  function FilterTools(tools: seq<Json>): (kept: seq<Json>)
    ensures |kept| <= |tools|
    ensures forall i :: 0 <= i < |kept| ==> KeepTool(kept[i])
  {
    if tools == [] then []
    else
      var last := tools[|tools| - 1];
      FilterTools(tools[..|tools| - 1]) + if KeepTool(last) then [last] else []
  }

  /** The `contents` field: `history` if it is an array, else `contents` if that is one. */
  function ContentsPart(payload: Json): (part: seq<Field>)
    requires ObjectLike(payload)
    ensures |part| <= 1 && forall i :: 0 <= i < |part| ==> part[i].key == "contents"
  {
    var history := Member(payload, "history");
    var contents := Member(payload, "contents");
    if IsArray(history) then [Field("contents", history.value)]
    else if IsArray(contents) then [Field("contents", contents.value)]
    else []
  }

  /** The `systemInstruction` field, copied when it is a truthy value of type 'object'. */
  function SystemInstructionPart(payload: Json): (part: seq<Field>)
    requires ObjectLike(payload)
    ensures |part| <= 1 && forall i :: 0 <= i < |part| ==> part[i].key == "systemInstruction"
  {
    var instruction := Member(payload, "systemInstruction");
    if instruction.Some? && ObjectLike(instruction.value) then [Field("systemInstruction", instruction.value)]
    else []
  }

  /** The `tools` field, present exactly when the payload's `tools` is an array. */
  function ToolsPart(payload: Json): (part: seq<Field>)
    requires ObjectLike(payload)
    ensures |part| <= 1 && forall i :: 0 <= i < |part| ==> part[i].key == "tools"
  {
    var tools := Member(payload, "tools");
    if IsArray(tools) then [Field("tools", JArray(FilterTools(tools.value.items)))] else []
  }

  /** The fields of `geminiBody`, in the order the handler assigns them. */
  function Normalize(payload: Json): (body: seq<Field>)
    requires ObjectLike(payload)
    ensures forall i :: 0 <= i < |body| ==> body[i].key in ForwardedKeys
    ensures forall i, j :: 0 <= i < j < |body| ==> body[i].key != body[j].key
  {
    ContentsPart(payload) + SystemInstructionPart(payload) + ToolsPart(payload)
  }

  /** The handler's step-by-step construction of `geminiBody`; it builds exactly `Normalize`. */
  method BuildGeminiBody(payload: Json) returns (geminiBody: seq<Field>)
    requires ObjectLike(payload)
    ensures geminiBody == Normalize(payload)
  {
    geminiBody := [];
    var history := Member(payload, "history");
    var contents := Member(payload, "contents");
    if IsArray(history) {
      geminiBody := geminiBody + [Field("contents", history.value)];
    } else if IsArray(contents) {
      geminiBody := geminiBody + [Field("contents", contents.value)];
    }
    assert geminiBody == ContentsPart(payload);
    var instruction := Member(payload, "systemInstruction");
    if instruction.Some? && ObjectLike(instruction.value) {
      geminiBody := geminiBody + [Field("systemInstruction", instruction.value)];
    }
    assert geminiBody == ContentsPart(payload) + SystemInstructionPart(payload);
    var tools := Member(payload, "tools");
    if IsArray(tools) {
      var entries := tools.value.items;
      var kept := [];
      for i := 0 to |entries|
        invariant kept == FilterTools(entries[..i])
      {
        assert entries[..i + 1][..i] == entries[..i];
        if KeepTool(entries[i]) {
          kept := kept + [entries[i]];
        }
      }
      assert entries[..|entries|] == entries;
      geminiBody := geminiBody + [Field("tools", JArray(kept))];
    }
  }

  /** A kept tool is an object whose first field is `google_search` and none of whose keys is an array index. */
  lemma KeepToolExactly(tool: Json)
    ensures KeepTool(tool) <==>
              && tool.JObject?
              && |tool.fields| > 0
              && tool.fields[0].key == "google_search"
              && forall i :: 0 <= i < |tool.fields| ==> !IsArrayIndex(tool.fields[i].key)
  {
    assert !IsArrayIndex("google_search") by { assert !IsDigit("google_search"[0]); }
    if tool.JObject? && SmallestIndexKey(tool.fields).Some? {
      var k := SmallestIndexKey(tool.fields).value;
      assert IsArrayIndex(k);
      assert k != "google_search";
    }
  }

  /**
   * `FilterTools` keeps exactly the entries `KeepTool` accepts, in their original order:
   * `pos` lists, in increasing order, the positions of the kept entries and of no others.
   */
  lemma {:induction false} FilterToolsPositions(tools: seq<Json>) returns (pos: seq<nat>)
    ensures |pos| == |FilterTools(tools)|
    ensures forall i, j :: 0 <= i < j < |pos| ==> pos[i] < pos[j]
    ensures forall i :: 0 <= i < |pos| ==> pos[i] < |tools| && FilterTools(tools)[i] == tools[pos[i]]
    ensures forall j :: 0 <= j < |tools| ==> (KeepTool(tools[j]) <==> j in pos)
  {
    if tools == [] {
      pos := [];
    } else {
      var n := |tools| - 1;
      var init := tools[..n];
      var p := FilterToolsPositions(init);
      if KeepTool(tools[n]) {
        pos := p + [n];
      } else {
        pos := p;
      }
    }
  }

  /** Filtering an already filtered list changes nothing. */
  lemma {:induction false} FilterToolsIdempotent(tools: seq<Json>)
    ensures FilterTools(FilterTools(tools)) == FilterTools(tools)
  {
    if tools != [] {
      var n := |tools| - 1;
      FilterToolsIdempotent(tools[..n]);
      var kept := FilterTools(tools[..n]);
      if KeepTool(tools[n]) {
        var r := kept + [tools[n]];
        assert r[..|r| - 1] == kept;
        assert FilterTools(r) == FilterTools(kept) + [tools[n]];
      } else {
        assert FilterTools(tools) == kept;
      }
    }
  }

  /** Reads of the forwarded body: each key is found in the one part that can carry it. */
  lemma NormalizeLookup(payload: Json, k: string)
    requires ObjectLike(payload)
    ensures k == "contents" ==> Lookup(Normalize(payload), k) == Lookup(ContentsPart(payload), k)
    ensures k == "systemInstruction" ==> Lookup(Normalize(payload), k) == Lookup(SystemInstructionPart(payload), k)
    ensures k == "tools" ==> Lookup(Normalize(payload), k) == Lookup(ToolsPart(payload), k)
  {
    var c, si, t := ContentsPart(payload), SystemInstructionPart(payload), ToolsPart(payload);
    LookupAppend(c + si, t, k);
    LookupAppend(c, si, k);
  }

  /** `contents` is `history` when that is an array, else `contents` when that is one, else absent. */
  lemma ContentsPriority(payload: Json)
    requires ObjectLike(payload)
    ensures IsArray(Member(payload, "history")) ==>
              Lookup(Normalize(payload), "contents") == Member(payload, "history")
    ensures !IsArray(Member(payload, "history")) && IsArray(Member(payload, "contents")) ==>
              Lookup(Normalize(payload), "contents") == Member(payload, "contents")
    ensures !IsArray(Member(payload, "history")) && !IsArray(Member(payload, "contents")) ==>
              Lookup(Normalize(payload), "contents").None?
  {
    NormalizeLookup(payload, "contents");
  }

  /** `systemInstruction` is forwarded unchanged exactly when it is an array or a non-null object. */
  lemma SystemInstructionRule(payload: Json)
    requires ObjectLike(payload)
    ensures var instruction := Member(payload, "systemInstruction");
            && (Lookup(Normalize(payload), "systemInstruction").Some? <==>
                  instruction.Some? && ObjectLike(instruction.value))
            && (Lookup(Normalize(payload), "systemInstruction").Some? ==>
                  Lookup(Normalize(payload), "systemInstruction") == instruction)
  {
    NormalizeLookup(payload, "systemInstruction");
  }

  /** `tools` is present, possibly empty, exactly when the payload's `tools` is an array, and is then its filtered entries. */
  lemma ToolsRule(payload: Json)
    requires ObjectLike(payload)
    ensures Lookup(Normalize(payload), "tools").Some? <==> IsArray(Member(payload, "tools"))
    ensures IsArray(Member(payload, "tools")) ==>
              Lookup(Normalize(payload), "tools") == Some(JArray(FilterTools(Member(payload, "tools").value.items)))
  {
    NormalizeLookup(payload, "tools");
  }

  /** Only `history`, `contents`, `systemInstruction` and `tools` of the payload influence the forwarded body. */
  lemma NormalizeIgnoresOtherFields(p: Json, q: Json)
    requires ObjectLike(p) && ObjectLike(q)
    requires Member(p, "history") == Member(q, "history")
    requires Member(p, "contents") == Member(q, "contents")
    requires Member(p, "systemInstruction") == Member(q, "systemInstruction")
    requires Member(p, "tools") == Member(q, "tools")
    ensures Normalize(p) == Normalize(q)
  {
  }

  /** No key outside the allow-list can be read from the forwarded body. */
  lemma NormalizeLookupOutside(payload: Json, k: string)
    requires ObjectLike(payload)
    requires k !in ForwardedKeys
    ensures Lookup(Normalize(payload), k).None?
  {
    var body := Normalize(payload);
    forall i | 0 <= i < |body| ensures body[i].key != k {
      assert body[i].key in ForwardedKeys;
    }
  }

  /** Re-normalizing keeps the `contents` field. */
  lemma ContentsPartStable(payload: Json)
    requires ObjectLike(payload)
    ensures ContentsPart(JObject(Normalize(payload))) == ContentsPart(payload)
  {
    var body := Normalize(payload);
    NormalizeLookupOutside(payload, "history");
    ContentsPriority(payload);
    var again := JObject(body);
    assert Member(again, "history").None?;
    assert Member(again, "contents") == Lookup(body, "contents");
  }

  /** Re-normalizing keeps the `systemInstruction` field. */
  lemma SystemInstructionPartStable(payload: Json)
    requires ObjectLike(payload)
    ensures SystemInstructionPart(JObject(Normalize(payload))) == SystemInstructionPart(payload)
  {
    var body := Normalize(payload);
    assert Member(JObject(body), "systemInstruction") == Lookup(body, "systemInstruction");
    SystemInstructionRule(payload);
  }

  /** Re-normalizing keeps the `tools` field. */
  lemma ToolsPartStable(payload: Json)
    requires ObjectLike(payload)
    ensures ToolsPart(JObject(Normalize(payload))) == ToolsPart(payload)
  {
    var body := Normalize(payload);
    assert Member(JObject(body), "tools") == Lookup(body, "tools");
    ToolsRule(payload);
    var tools := Member(payload, "tools");
    if IsArray(tools) {
      FilterToolsIdempotent(tools.value.items);
    }
  }

  /** A forwarded body sent through the handler again comes out unchanged. */
  lemma NormalizeIdempotent(payload: Json)
    requires ObjectLike(payload)
    ensures Normalize(JObject(Normalize(payload))) == Normalize(payload)
  {
    ContentsPartStable(payload);
    SystemInstructionPartStable(payload);
    ToolsPartStable(payload);
  }
}
