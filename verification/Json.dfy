/** The JSON values a session store keeps. A transcript entry is a JSON object; the field names the
    code reads have a constructor of their own, every other name is `Other`. */
module Json {

  datatype Field =
    | Type | Uuid | ParentUuid | LogicalParentUuid | SessionId | Timestamp
    | IsSidechain | IsMeta | IsCompactSummary | TeamName | AgentName | Slug | SourceToolAssistantUuid
    | ForkedFrom | MessageUuid | Message | Content | Text
    | Cwd | CustomTitle | AiTitle | LastPrompt | SummaryText | GitBranch | Tag | Replacements
    | ToolUseId | ParentAgentId
    | Other(name: string)

  datatype Json =
    | Null
    | Bool(b: bool)
    | Num(n: int)
    | Str(s: string)
    | Arr(items: seq<Json>)
    | Obj(fields: map<Field, Json>)

  type Entry = map<Field, Json>

  /** The suffix of a transcript file. */
  const JSONL := ".jsonl"

  datatype Option<+T> = None | Some(value: T)

  /** Indexing a map gives nil for a missing key, which is also what a JSON null decodes to. */
  function At(e: Entry, k: Field): Json {
    if k in e then e[k] else Null
  }

  /** `s, _ := e[k].(string)`: the empty string unless the field holds one. */
  function StrAt(e: Entry, k: Field): string {
    if At(e, k).Str? then At(e, k).s else ""
  }
}
