/**
 * The edit tool's content logic: an exact-match find and replace on the
 * text of one file. Reading and writing the file are inputs and outputs:
 * `read` gives the file's text (or why it could not be read) and the
 * result says what, if anything, would be written.
 */
module Edit {

  import opened Text
  import opened Tools

  datatype EditParams = EditParams(filePath: string, oldString: string, newString: string, replaceAll: bool)

  function MatchesError(count: nat, filePath: string): string
  {
    "found " + NatToString(count) + " matches for oldString in " + filePath +
    ". Use replace_all=true to replace all, or provide more context to make the match unique"
  }

  const NoChanges := "No changes made (old_string equals new_string)."

  /** The new text of the file, or why there is none */
  function NewContent(original: string, p: EditParams): (r: Result<string>)
    // a missing old_string is an error
    ensures !Contains(original, p.oldString) ==> r == Err("oldString not found in " + p.filePath)
    // replace_all replaces every occurrence
    ensures Contains(original, p.oldString) && p.replaceAll ==> r == Ok(ReplaceAll(original, p.oldString, p.newString))
    // otherwise more than one occurrence is an error naming the count
    ensures !p.replaceAll && Count(original, p.oldString) > 1 ==> r == Err(MatchesError(Count(original, p.oldString), p.filePath))
    // and a single occurrence is replaced
    ensures Contains(original, p.oldString) && !p.replaceAll && Count(original, p.oldString) <= 1 ==>
      r == Ok(ReplaceFirst(original, p.oldString, p.newString))
  {
    CountPositiveIffContains(original, p.oldString);
    if !Contains(original, p.oldString) then Err("oldString not found in " + p.filePath)
    else if p.replaceAll then Ok(ReplaceAll(original, p.oldString, p.newString))
    else
      var count := Count(original, p.oldString);
      if count > 1 then Err(MatchesError(count, p.filePath))
      else Ok(ReplaceFirst(original, p.oldString, p.newString))
  }

  /** An edit succeeds exactly when old_string occurs, and once unless every occurrence is to be replaced */
  lemma EditSucceeds(original: string, p: EditParams)
    ensures NewContent(original, p).Ok? <==>
      Count(original, p.oldString) >= 1 && (p.replaceAll || Count(original, p.oldString) == 1)
  {
    CountPositiveIffContains(original, p.oldString);
  }

  /** The text changes exactly when old_string and new_string differ */
  lemma ChangedIffDifferent(original: string, p: EditParams)
    requires NewContent(original, p).Ok?
    ensures NewContent(original, p).value == original <==> p.oldString == p.newString
  {
    CountPositiveIffContains(original, p.oldString);
    var c := NewContent(original, p);
    if p.replaceAll {
      assert c.value == ReplaceAll(original, p.oldString, p.newString);
      if p.oldString == p.newString {
        ReplaceAllSame(original, p.oldString);
      } else {
        ReplaceAllChanges(original, p.oldString, p.newString);
      }
    } else {
      assert c.value == ReplaceFirst(original, p.oldString, p.newString);
      if p.oldString == p.newString {
        ReplaceFirstSame(original, p.oldString);
      } else {
        ReplaceFirstChanges(original, p.oldString, p.newString);
      }
    }
  }

  lemma ReplaceFirstSame(s: string, pat: string)
    requires Contains(s, pat)
    ensures ReplaceFirst(s, pat, pat) == s
  {
    if pat == [] { return; }
    var i := Index(s, pat);
    assert s[..i] + s[i..i + |pat|] + s[i + |pat|..] == s;
  }

  /**
   * Replacing the single occurrence changes nothing but that occurrence:
   * the text before and after it is kept, and it is the same as replacing
   * all occurrences.
   */
  lemma SingleReplacement(original: string, p: EditParams)
    requires p.oldString != [] && !p.replaceAll && NewContent(original, p).Ok?
    ensures var i := Index(original, p.oldString);
      && i >= 0 && Count(original, p.oldString) == 1
      && NewContent(original, p).value == original[..i] + p.newString + original[i + |p.oldString|..]
      && NewContent(original, p).value == ReplaceAll(original, p.oldString, p.newString)
  {
    CountPositiveIffContains(original, p.oldString);
    SingleOccurrenceReplace(original, p.oldString, p.newString);
  }

  /** What an edit does: its result, and the file it writes with the new text, if any */
  datatype EditRun = EditRun(result: Outcome, written: Option<(string, string)>)

  /**
   * Execute: parse, resolve the path, read, change, write. `rel` stands
   * for filepath.Rel, `read` for reading a file and `writeErr` for the
   * outcome of writing it.
   */
  function Execute(workDir: string, parsed: Result<EditParams>, read: string -> Result<string>,
                   writeErr: Option<string>, rel: (string, string) -> string): (r: EditRun)
    ensures parsed.Err? ==> r == EditRun(Failure("parsing edit parameters: " + parsed.error), None)
    ensures parsed.Ok? && read(Resolve(workDir, parsed.value.filePath)).Err? ==>
      r == EditRun(Failure("reading file: " + read(Resolve(workDir, parsed.value.filePath)).error), None)
    // nothing is written unless the text changes, and then the new text goes to the resolved path
    ensures r.written.Some? ==>
      && parsed.Ok? && read(Resolve(workDir, parsed.value.filePath)).Ok?
      && var original := read(Resolve(workDir, parsed.value.filePath)).value;
      && NewContent(original, parsed.value).Ok?
      && r.written.value == (Resolve(workDir, parsed.value.filePath), NewContent(original, parsed.value).value)
      && r.written.value.1 != original
    ensures parsed.Ok? && read(Resolve(workDir, parsed.value.filePath)).Ok? ==>
      var path := Resolve(workDir, parsed.value.filePath);
      var c := NewContent(read(path).value, parsed.value);
      && (c.Err? ==> r == EditRun(Failure(c.error), None))
      && (c.Ok? && c.value == read(path).value ==> r == EditRun(Output(NoChanges), None))
      && (c.Ok? && c.value != read(path).value ==> r.written == Some((path, c.value)))
    ensures r.written.Some? ==>
      r.result == if writeErr.Some? then Failure("writing file: " + writeErr.value)
                  else Output("Successfully edited " + rel(workDir, r.written.value.0))
  {
    match parsed
    case Err(e) => EditRun(Failure("parsing edit parameters: " + e), None)
    case Ok(p) =>
      var path := Resolve(workDir, p.filePath);
      match read(path)
      case Err(e) => EditRun(Failure("reading file: " + e), None)
      case Ok(original) =>
        match NewContent(original, p)
        case Err(e) => EditRun(Failure(e), None)
        case Ok(content) =>
          if content == original then EditRun(Output(NoChanges), None)
          else if writeErr.Some? then EditRun(Failure("writing file: " + writeErr.value), Some((path, content)))
          else EditRun(Output("Successfully edited " + rel(workDir, path)), Some((path, content)))
  }
}
