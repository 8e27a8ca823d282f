/**
 * Refactoring proposals: plain records describing a change to a source file.
 * Each kind of proposal is built by a dataclass constructor whose
 * post-initialisation step forces the proposal type, fills in a default
 * description when none was given, copies the kind-specific fields into the
 * `metadata` dict, and (for import reordering) rejects a proposal that does not
 * start at line 1.
 */
module Refactoring {
  import opened Wrappers
  import opened JsonValue
  import Text

  datatype ProposalType =
    | RenameSymbol
    | AddTypeHint
    | ReplaceDeprecated
    | ExtractMethod
    | ReorderImports
    | InsertCode
    | DeleteCode

  /** The enum's string values. */
  function TypeValue(t: ProposalType): (s: string)
    ensures s != ""
  {
    match t
    case RenameSymbol => "rename_symbol"
    case AddTypeHint => "add_type_hint"
    case ReplaceDeprecated => "replace_deprecated"
    case ExtractMethod => "extract_method"
    case ReorderImports => "reorder_imports"
    case InsertCode => "insert_code"
    case DeleteCode => "delete_code"
  }

  /** The fields each subclass adds to the common ones. */
  datatype Details =
    | RenameFields(oldName: string, newName: string)
    | TypeHintFields(targetName: string, hintType: string, hintLocation: string, positionInLine: Option<int>)
    | DeprecatedFields(oldPattern: string, newReplacement: string, isRegex: bool)
    | ExtractFields(newMethodName: string, parameters: seq<string>, returnValue: Option<string>, indentationLevel: int)
    | ReorderFields
    | InsertFields(codeToInsert: string, indentationLevel: int, insertAfterLine: bool)
    | DeleteFields

  /** A constructed proposal: the common dataclass fields plus the subclass's own. */
  datatype Proposal = Proposal(
    proposalType: ProposalType,
    lineStart: int,
    lineEnd: int,
    description: string,
    columnStart: Option<int>,
    columnEnd: Option<int>,
    metadata: Dict,
    details: Details)

  /** The proposal type that belongs to each subclass. */
  function KindOf(d: Details): ProposalType {
    match d
    case RenameFields(_, _) => RenameSymbol
    case TypeHintFields(_, _, _, _) => AddTypeHint
    case DeprecatedFields(_, _, _) => ReplaceDeprecated
    case ExtractFields(_, _, _, _) => ExtractMethod
    case ReorderFields => ReorderImports
    case InsertFields(_, _, _) => InsertCode
    case DeleteFields => DeleteCode
  }

  /** A proposal whose recorded type is the one of its own subclass. */
  predicate WellTyped(p: Proposal) {
    p.proposalType == KindOf(p.details)
  }

  /** `description or default`, the rule every post-initialisation step applies. */
  function DescriptionOr(description: string, default: string): (r: string)
    ensures description != "" ==> r == description
    ensures description == "" ==> r == default
  {
    if description == "" then default else description
  }

  function Quoted(s: string): string {
    "'" + s + "'"
  }

  function OptionalStr(o: Option<string>): Value {
    match o
    case Some(s) => JStr(s)
    case None => JNull
  }

  // ---------------------------------------------------------------------
  // The constructors. `passedType` is the `proposal_type` argument, which
  // every subclass overwrites; `metadata` is the dict passed in (an empty
  // one by default).
  // ---------------------------------------------------------------------

  function NewRenameSymbol(
    passedType: ProposalType, lineStart: int, lineEnd: int, description: string,
    oldName: string, newName: string,
    columnStart: Option<int>, columnEnd: Option<int>, metadata: Dict): (p: Proposal)
    ensures WellTyped(p) && p.proposalType == RenameSymbol
    ensures p.lineStart == lineStart && p.lineEnd == lineEnd
    ensures p.columnStart == columnStart && p.columnEnd == columnEnd
    ensures description != "" ==> p.description == description
    ensures description == "" ==> p.description == "Rename " + Quoted(oldName) + " to " + Quoted(newName)
    ensures p.metadata.Keys == metadata.Keys + {"old_name", "new_name"}
    ensures p.metadata["old_name"] == JStr(oldName) && p.metadata["new_name"] == JStr(newName)
    ensures forall k :: k in metadata && k != "old_name" && k != "new_name" ==> p.metadata[k] == metadata[k]
    ensures p.details == RenameFields(oldName, newName)
  {
    Proposal(RenameSymbol, lineStart, lineEnd,
      DescriptionOr(description, "Rename " + Quoted(oldName) + " to " + Quoted(newName)),
      columnStart, columnEnd,
      metadata["old_name" := JStr(oldName)]["new_name" := JStr(newName)],
      RenameFields(oldName, newName))
  }

  function TypeHintMetadata(metadata: Dict, targetName: string, hintType: string, hintLocation: string,
                            positionInLine: Option<int>): Dict
  {
    var m := metadata["target_name" := JStr(targetName)]["hint_type" := JStr(hintType)]["hint_location" := JStr(hintLocation)];
    if positionInLine.Some? then m["position_in_line" := JNum(positionInLine.value)] else m
  }

  function NewAddTypeHint(
    passedType: ProposalType, lineStart: int, lineEnd: int, description: string,
    targetName: string, hintType: string, hintLocation: string,
    columnStart: Option<int>, columnEnd: Option<int>, metadata: Dict,
    positionInLine: Option<int>): (p: Proposal)
    ensures WellTyped(p) && p.proposalType == AddTypeHint
    ensures p.lineStart == lineStart && p.lineEnd == lineEnd
    ensures p.columnStart == columnStart && p.columnEnd == columnEnd
    ensures description != "" ==> p.description == description
    ensures description == "" ==>
      p.description == "Add type hint " + Quoted(hintType) + " to " + Quoted(targetName) + " (" + hintLocation + ")"
    ensures {"target_name", "hint_type", "hint_location"} <= p.metadata.Keys
    ensures p.metadata["target_name"] == JStr(targetName)
    ensures p.metadata["hint_type"] == JStr(hintType)
    ensures p.metadata["hint_location"] == JStr(hintLocation)
    // `position_in_line` is written only when it is not None
    ensures positionInLine.Some? ==>
      "position_in_line" in p.metadata && p.metadata["position_in_line"] == JNum(positionInLine.value)
    ensures positionInLine.None? ==>
      ("position_in_line" in p.metadata <==> "position_in_line" in metadata)
    ensures positionInLine.None? && "position_in_line" in metadata ==>
      p.metadata["position_in_line"] == metadata["position_in_line"]
    ensures forall k :: k in metadata ==> k in p.metadata
    ensures forall k :: k in p.metadata && k !in metadata ==>
      k == "target_name" || k == "hint_type" || k == "hint_location" || k == "position_in_line"
    ensures p.details == TypeHintFields(targetName, hintType, hintLocation, positionInLine)
  {
    Proposal(AddTypeHint, lineStart, lineEnd,
      DescriptionOr(description,
        "Add type hint " + Quoted(hintType) + " to " + Quoted(targetName) + " (" + hintLocation + ")"),
      columnStart, columnEnd,
      TypeHintMetadata(metadata, targetName, hintType, hintLocation, positionInLine),
      TypeHintFields(targetName, hintType, hintLocation, positionInLine))
  }

  function NewReplaceDeprecated(
    passedType: ProposalType, lineStart: int, lineEnd: int, description: string,
    oldPattern: string, newReplacement: string,
    columnStart: Option<int>, columnEnd: Option<int>, metadata: Dict,
    isRegex: bool): (p: Proposal)
    ensures WellTyped(p) && p.proposalType == ReplaceDeprecated
    ensures p.lineStart == lineStart && p.lineEnd == lineEnd
    ensures p.columnStart == columnStart && p.columnEnd == columnEnd
    ensures description != "" ==> p.description == description
    ensures description == "" ==>
      p.description == "Replace deprecated " + Quoted(oldPattern) + " with " + Quoted(newReplacement)
    ensures p.metadata.Keys == metadata.Keys + {"old_pattern", "new_replacement", "is_regex"}
    ensures p.metadata["old_pattern"] == JStr(oldPattern)
    ensures p.metadata["new_replacement"] == JStr(newReplacement)
    ensures p.metadata["is_regex"] == JBool(isRegex)
    ensures p.details == DeprecatedFields(oldPattern, newReplacement, isRegex)
  {
    Proposal(ReplaceDeprecated, lineStart, lineEnd,
      DescriptionOr(description, "Replace deprecated " + Quoted(oldPattern) + " with " + Quoted(newReplacement)),
      columnStart, columnEnd,
      metadata["old_pattern" := JStr(oldPattern)]["new_replacement" := JStr(newReplacement)]["is_regex" := JBool(isRegex)],
      DeprecatedFields(oldPattern, newReplacement, isRegex))
  }

  function NewExtractMethod(
    passedType: ProposalType, lineStart: int, lineEnd: int, description: string,
    newMethodName: string, parameters: seq<string>, returnValue: Option<string>, indentationLevel: int,
    columnStart: Option<int>, columnEnd: Option<int>, metadata: Dict): (p: Proposal)
    ensures WellTyped(p) && p.proposalType == ExtractMethod
    ensures p.lineStart == lineStart && p.lineEnd == lineEnd
    ensures p.columnStart == columnStart && p.columnEnd == columnEnd
    ensures description != "" ==> p.description == description
    ensures description == "" ==> p.description == "Extract method " + Quoted(newMethodName)
    ensures p.metadata.Keys == metadata.Keys + {"new_method_name", "parameters", "return_value", "indentation_level"}
    ensures p.metadata["new_method_name"] == JStr(newMethodName)
    ensures p.metadata["parameters"] == StrList(parameters)
    // a missing return value is stored as None, not left out
    ensures p.metadata["return_value"] == OptionalStr(returnValue)
    ensures p.metadata["indentation_level"] == JNum(indentationLevel)
    ensures p.details == ExtractFields(newMethodName, parameters, returnValue, indentationLevel)
  {
    Proposal(ExtractMethod, lineStart, lineEnd,
      DescriptionOr(description, "Extract method " + Quoted(newMethodName)),
      columnStart, columnEnd,
      metadata["new_method_name" := JStr(newMethodName)]["parameters" := StrList(parameters)]
              ["return_value" := OptionalStr(returnValue)]["indentation_level" := JNum(indentationLevel)],
      ExtractFields(newMethodName, parameters, returnValue, indentationLevel))
  }

  const ReorderDefault := "Reorder and clean up imports"
  const ReorderError := "ValueError: ReorderImportsProposal should start at line 1 for file-wide application."

  /** The only constructor that can fail: a file-wide proposal must start at line 1. */
  function NewReorderImports(
    passedType: ProposalType, lineStart: int, lineEnd: int, description: string,
    columnStart: Option<int>, columnEnd: Option<int>, metadata: Dict): (r: Result<Proposal>)
    ensures r.Raise? <==> lineStart != 1
    ensures r.Raise? ==> r.error == ReorderError
    ensures r.Ok? ==> WellTyped(r.value) && r.value.proposalType == ReorderImports
    ensures r.Ok? ==> r.value.lineStart == 1 && r.value.lineEnd == lineEnd
    ensures r.Ok? ==> r.value.columnStart == columnStart && r.value.columnEnd == columnEnd
    ensures r.Ok? && description != "" ==> r.value.description == description
    ensures r.Ok? && description == "" ==> r.value.description == ReorderDefault
    // nothing is added to the metadata
    ensures r.Ok? ==> r.value.metadata == metadata
  {
    if lineStart != 1 then Raise(ReorderError)
    else Ok(Proposal(ReorderImports, lineStart, lineEnd, DescriptionOr(description, ReorderDefault),
                     columnStart, columnEnd, metadata, ReorderFields))
  }

  function NewInsertCode(
    passedType: ProposalType, lineStart: int, lineEnd: int, description: string,
    codeToInsert: string,
    columnStart: Option<int>, columnEnd: Option<int>, metadata: Dict,
    indentationLevel: int, insertAfterLine: bool): (p: Proposal)
    ensures WellTyped(p) && p.proposalType == InsertCode
    ensures p.lineStart == lineStart && p.lineEnd == lineEnd
    ensures p.columnStart == columnStart && p.columnEnd == columnEnd
    ensures description != "" ==> p.description == description
    ensures description == "" ==> p.description == "Insert code at line " + Text.IntToString(lineStart)
    ensures p.metadata.Keys == metadata.Keys + {"code_to_insert", "indentation_level", "insert_after_line"}
    ensures p.metadata["code_to_insert"] == JStr(codeToInsert)
    ensures p.metadata["indentation_level"] == JNum(indentationLevel)
    ensures p.metadata["insert_after_line"] == JBool(insertAfterLine)
    ensures p.details == InsertFields(codeToInsert, indentationLevel, insertAfterLine)
  {
    Proposal(InsertCode, lineStart, lineEnd,
      DescriptionOr(description, "Insert code at line " + Text.IntToString(lineStart)),
      columnStart, columnEnd,
      metadata["code_to_insert" := JStr(codeToInsert)]["indentation_level" := JNum(indentationLevel)]
              ["insert_after_line" := JBool(insertAfterLine)],
      InsertFields(codeToInsert, indentationLevel, insertAfterLine))
  }

  function NewDeleteCode(
    passedType: ProposalType, lineStart: int, lineEnd: int, description: string,
    columnStart: Option<int>, columnEnd: Option<int>, metadata: Dict): (p: Proposal)
    ensures WellTyped(p) && p.proposalType == DeleteCode
    ensures p.lineStart == lineStart && p.lineEnd == lineEnd
    ensures p.columnStart == columnStart && p.columnEnd == columnEnd
    ensures description != "" ==> p.description == description
    ensures description == "" ==>
      p.description == "Delete code from line " + Text.IntToString(lineStart) + " to " + Text.IntToString(lineEnd)
    ensures p.metadata == metadata
  {
    Proposal(DeleteCode, lineStart, lineEnd,
      DescriptionOr(description,
        "Delete code from line " + Text.IntToString(lineStart) + " to " + Text.IntToString(lineEnd)),
      columnStart, columnEnd, metadata, DeleteFields)
  }

  // ---------------------------------------------------------------------
  // Reading a proposal back from its metadata: the metadata dict holds the
  // subclass's own fields.
  // ---------------------------------------------------------------------

  function StrOf(v: Value): Option<string> {
    if v.JStr? then Some(v.s) else None
  }

  /** Decodes a stored list of strings; anything else is rejected. */
  function StrsOf(items: seq<Value>): (r: Option<seq<string>>)
    ensures r.Some? ==> |r.value| == |items|
  {
    if items == [] then Some([])
    else match (StrOf(items[0]), StrsOf(items[1..]))
      case (Some(x), Some(xs)) => Some([x] + xs)
      case _ => None
  }

  function OptionalStrOf(v: Value): Option<Option<string>> {
    match v
    case JNull => Some(None)
    case JStr(s) => Some(Some(s))
    case _ => None
  }

  function DetailsFromMetadata(kind: ProposalType, md: Dict): Option<Details> {
    match kind
    case RenameSymbol =>
      if "old_name" in md && "new_name" in md && md["old_name"].JStr? && md["new_name"].JStr?
      then Some(RenameFields(md["old_name"].s, md["new_name"].s)) else None
    case AddTypeHint =>
      if "target_name" in md && "hint_type" in md && "hint_location" in md
         && md["target_name"].JStr? && md["hint_type"].JStr? && md["hint_location"].JStr?
      then
        var pos := if "position_in_line" in md && md["position_in_line"].JNum?
                   then Some(md["position_in_line"].n) else None;
        Some(TypeHintFields(md["target_name"].s, md["hint_type"].s, md["hint_location"].s, pos))
      else None
    case ReplaceDeprecated =>
      if "old_pattern" in md && "new_replacement" in md && "is_regex" in md
         && md["old_pattern"].JStr? && md["new_replacement"].JStr? && md["is_regex"].JBool?
      then Some(DeprecatedFields(md["old_pattern"].s, md["new_replacement"].s, md["is_regex"].b)) else None
    case ExtractMethod =>
      if "new_method_name" in md && "parameters" in md && "return_value" in md && "indentation_level" in md
         && md["new_method_name"].JStr? && md["parameters"].JArr? && md["indentation_level"].JNum?
      then
        match (StrsOf(md["parameters"].items), OptionalStrOf(md["return_value"]))
        case (Some(ps), Some(rv)) =>
          Some(ExtractFields(md["new_method_name"].s, ps, rv, md["indentation_level"].n))
        case _ => None
      else None
    case ReorderImports => Some(ReorderFields)
    case InsertCode =>
      if "code_to_insert" in md && "indentation_level" in md && "insert_after_line" in md
         && md["code_to_insert"].JStr? && md["indentation_level"].JNum? && md["insert_after_line"].JBool?
      then Some(InsertFields(md["code_to_insert"].s, md["indentation_level"].n, md["insert_after_line"].b))
      else None
    case DeleteCode => Some(DeleteFields)
  }

  lemma {:induction false} StrsOfStrList(xs: seq<string>)
    ensures StrsOf(StrList(xs).items) == Some(xs)
  {
    if xs != [] {
      var items := StrList(xs).items;
      StrsOfStrList(xs[1..]);
      assert items[1..] == StrList(xs[1..]).items;
      assert StrOf(items[0]) == Some(xs[0]);
      assert [xs[0]] + xs[1..] == xs;
    }
  }

  /**
   * A proposal without a stale `position_in_line` entry carries all its own
   * fields in its metadata; for import reordering and deletion there are none.
   */
  predicate MetadataRecordsDetails(p: Proposal) {
    DetailsFromMetadata(p.proposalType, p.metadata) == Some(p.details)
  }

  lemma RenameRecords(
    t: ProposalType, ls: int, le: int, d: string, oldName: string, newName: string,
    cs: Option<int>, ce: Option<int>, md: Dict)
    ensures MetadataRecordsDetails(NewRenameSymbol(t, ls, le, d, oldName, newName, cs, ce, md))
  {
  }

  /** Only a `position_in_line` already in the passed metadata can disagree with the field. */
  lemma TypeHintRecords(
    t: ProposalType, ls: int, le: int, d: string, target: string, hint: string, location: string,
    cs: Option<int>, ce: Option<int>, md: Dict, pos: Option<int>)
    requires pos.Some? || "position_in_line" !in md
    ensures MetadataRecordsDetails(NewAddTypeHint(t, ls, le, d, target, hint, location, cs, ce, md, pos))
  {
  }

  lemma ExtractRecords(
    t: ProposalType, ls: int, le: int, d: string, name: string, params: seq<string>, rv: Option<string>,
    level: int, cs: Option<int>, ce: Option<int>, md: Dict)
    ensures MetadataRecordsDetails(NewExtractMethod(t, ls, le, d, name, params, rv, level, cs, ce, md))
  {
    var p := NewExtractMethod(t, ls, le, d, name, params, rv, level, cs, ce, md);
    StrsOfStrList(params);
    assert OptionalStrOf(OptionalStr(rv)) == Some(rv);
  }

  lemma DeprecatedRecords(
    t: ProposalType, ls: int, le: int, d: string, pattern: string, replacement: string, isRegex: bool,
    cs: Option<int>, ce: Option<int>, md: Dict)
    ensures MetadataRecordsDetails(NewReplaceDeprecated(t, ls, le, d, pattern, replacement, cs, ce, md, isRegex))
  {
  }

  lemma InsertRecords(
    t: ProposalType, ls: int, le: int, d: string, code: string, level: int, after: bool,
    cs: Option<int>, ce: Option<int>, md: Dict)
    ensures MetadataRecordsDetails(NewInsertCode(t, ls, le, d, code, cs, ce, md, level, after))
  {
  }

  /** Deletion and import reordering carry no fields of their own: any metadata records them. */
  lemma DeleteReorderRecords(t: ProposalType, ls: int, le: int, d: string, cs: Option<int>, ce: Option<int>, md: Dict)
    ensures MetadataRecordsDetails(NewDeleteCode(t, ls, le, d, cs, ce, md))
    ensures NewReorderImports(t, ls, le, d, cs, ce, md).Ok? ==>
      MetadataRecordsDetails(NewReorderImports(t, ls, le, d, cs, ce, md).value)
  {
  }

  /** The passed `proposal_type` never matters, and no constructed proposal is left without a description. */
  lemma PassedTypeIgnored(
    t1: ProposalType, t2: ProposalType, ls: int, le: int, d: string, a: string, b: string,
    cs: Option<int>, ce: Option<int>, md: Dict)
    ensures NewRenameSymbol(t1, ls, le, d, a, b, cs, ce, md) == NewRenameSymbol(t2, ls, le, d, a, b, cs, ce, md)
    ensures NewDeleteCode(t1, ls, le, d, cs, ce, md) == NewDeleteCode(t2, ls, le, d, cs, ce, md)
    ensures NewReorderImports(t1, ls, le, d, cs, ce, md) == NewReorderImports(t2, ls, le, d, cs, ce, md)
    ensures NewRenameSymbol(t1, ls, le, d, a, b, cs, ce, md).description != ""
    ensures NewDeleteCode(t1, ls, le, d, cs, ce, md).description != ""
    ensures NewInsertCode(t1, ls, le, d, a, cs, ce, md, 0, false).description != ""
  {
  }

  /** Distinct proposal types have distinct string values. */
  lemma TypeValuesDistinct(t1: ProposalType, t2: ProposalType)
    ensures TypeValue(t1) == TypeValue(t2) <==> t1 == t2
  {
  }
}
