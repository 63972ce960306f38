/**
 * The output application header block, block "2": a fixed-width content of
 * 47 characters, the mode 'O' followed by nine positional fields.
 */
module ApplicationHeaderOutput {
  import opened SwiftBlock

  const BlockId2: string := "2"
  const ModeCode: string := "O"

  /**
   * The widths of the ten groups of the content pattern: mode, message type,
   * input time, input date, message input reference, session number,
   * sequence number, output date, output time, priority.
   */
  const GroupWidths: seq<nat> := [1, 3, 4, 6, 12, 4, 6, 6, 4, 1]
  const ContentLength: nat := 47

  datatype MessagePriority = Urgent | Normal | System

  /** A calendar date and time of day, as the date-time parser yields it. */
  datatype LocalDateTime = LocalDateTime(year: int, month: int, day: int, hour: int, minute: int)

  datatype ApplicationHeaderOutputBlock = ApplicationHeaderOutputBlock(
    sessionNumber: string,
    sequenceNumber: string,
    messageType: string,
    inputDateTime: LocalDateTime,
    inputReference: string,
    outputDateTime: LocalDateTime,
    messagePriority: MessagePriority)

  /**
   * The characters a regular-expression `.` does not match when the pattern
   * is compiled without the DOTALL flag: the line terminators.
   */
  predicate IsLineTerminator(c: char)
  {
    c == '\n' || c == '\r' || c == '\U{85}' || c == '\U{2028}' || c == '\U{2029}'
  }

  /** `s` consists of characters that `.` matches. */
  predicate AnyChars(s: string)
  {
    forall i :: 0 <= i < |s| ==> !IsLineTerminator(s[i])
  }

  /**
   * The content pattern matches the whole content: 47 characters, 'O' first,
   * and no line terminator after it.
   */
  predicate MatchesContentPattern(content: string)
  {
    |content| == ContentLength && content[0] == 'O' &&
    forall i :: 1 <= i < |content| ==> !IsLineTerminator(content[i])
  }

  /** The text of group `k` (1 to 10) of a content of the pattern's length. */
  function Group(content: string, k: nat): string
    requires |content| == ContentLength && 1 <= k <= 10
  {
    match k
    case 1 => content[0..1]
    case 2 => content[1..4]
    case 3 => content[4..8]
    case 4 => content[8..14]
    case 5 => content[14..26]
    case 6 => content[26..30]
    case 7 => content[30..36]
    case 8 => content[36..42]
    case 9 => content[42..46]
    case _ => content[46..47]
  }

  /** The constructor: every argument must be given (non-null in the source). */
  function Create(sessionNumber: Option<string>, sequenceNumber: Option<string>, messageType: Option<string>,
                  inputDateTime: Option<LocalDateTime>, inputReference: Option<string>,
                  outputDateTime: Option<LocalDateTime>, messagePriority: Option<MessagePriority>)
    : (r: Result<ApplicationHeaderOutputBlock>)
    ensures r.Success? <==>
              sessionNumber.Some? && sequenceNumber.Some? && messageType.Some? && inputDateTime.Some? &&
              inputReference.Some? && outputDateTime.Some? && messagePriority.Some?
    ensures r.Failure? ==> r.error == IllegalArgument
    ensures r.Success? ==>
              && r.value.sessionNumber == sessionNumber.value
              && r.value.sequenceNumber == sequenceNumber.value
              && r.value.messageType == messageType.value
              && r.value.inputDateTime == inputDateTime.value
              && r.value.inputReference == inputReference.value
              && r.value.outputDateTime == outputDateTime.value
              && r.value.messagePriority == messagePriority.value
  {
    if sessionNumber.None? || sequenceNumber.None? || messageType.None? || inputDateTime.None? ||
       inputReference.None? || outputDateTime.None? || messagePriority.None?
    then Failure(IllegalArgument)
    else Success(ApplicationHeaderOutputBlock(sessionNumber.value, sequenceNumber.value, messageType.value,
                                              inputDateTime.value, inputReference.value,
                                              outputDateTime.value, messagePriority.value))
  }

  /**
   * Parses an output application header block. `parseDateTime` reads a
   * ten-character `yyMMddHHmm` text; `priorityOf` looks up a priority code.
   */
  function Of(block: GeneralBlock, parseDateTime: string -> Option<LocalDateTime>,
              priorityOf: string -> Option<MessagePriority>): (r: Result<ApplicationHeaderOutputBlock>)
    ensures block.id != BlockId2 ==> r == Failure(IllegalArgument)
    ensures block.id == BlockId2 && !MatchesContentPattern(block.content) ==>
              r == Failure(BlockFieldParse(BlockId2, ContentPatternMismatch))
    ensures !(r.Failure? && r.error.BlockFieldParse? && r.error.reason.ModeMismatch?)
    ensures r.Success? <==>
              && block.id == BlockId2
              && MatchesContentPattern(block.content)
              && parseDateTime(block.content[8..14] + block.content[4..8]).Some?
              && parseDateTime(block.content[36..42] + block.content[42..46]).Some?
              && priorityOf(block.content[46..47]).Some?
    ensures block.id == BlockId2 && MatchesContentPattern(block.content) ==>
              var inputText := block.content[8..14] + block.content[4..8];
              var outputText := block.content[36..42] + block.content[42..46];
              && (parseDateTime(inputText).None? ==> r == Failure(DateTimeParse(inputText)))
              && (parseDateTime(inputText).Some? && parseDateTime(outputText).None? ==>
                    r == Failure(DateTimeParse(outputText)))
              && (parseDateTime(inputText).Some? && parseDateTime(outputText).Some? &&
                  priorityOf(block.content[46..47]).None? ==>
                    r == Failure(UnknownPriority(block.content[46..47])))
    ensures r.Success? ==>
              && r.value.messageType == block.content[1..4]
              && r.value.inputReference == block.content[14..26]
              && r.value.sessionNumber == block.content[26..30]
              && r.value.sequenceNumber == block.content[30..36]
              && parseDateTime(block.content[8..14] + block.content[4..8]) == Some(r.value.inputDateTime)
              && parseDateTime(block.content[36..42] + block.content[42..46]) == Some(r.value.outputDateTime)
              && priorityOf(block.content[46..47]) == Some(r.value.messagePriority)
  {
    if block.id != BlockId2 then Failure(IllegalArgument)
    else if !MatchesContentPattern(block.content) then Failure(BlockFieldParse(block.id, ContentPatternMismatch))
    else
      var content := block.content;
      var mode := Group(content, 1);
      if mode != ModeCode then Failure(BlockFieldParse(block.id, ModeMismatch(mode)))
      else
        var messageType := Group(content, 2);
        var inputText := Group(content, 4) + Group(content, 3);
        match parseDateTime(inputText)
        case None => Failure(DateTimeParse(inputText))
        case Some(inputDateTime) =>
          var inputReference := Group(content, 5);
          var sessionNumber := Group(content, 6);
          var sequenceNumber := Group(content, 7);
          var outputText := Group(content, 8) + Group(content, 9);
          match parseDateTime(outputText)
          case None => Failure(DateTimeParse(outputText))
          case Some(outputDateTime) =>
            match priorityOf(Group(content, 10))
            case None => Failure(UnknownPriority(Group(content, 10)))
            case Some(messagePriority) =>
              Create(Some(sessionNumber), Some(sequenceNumber), Some(messageType), Some(inputDateTime),
                     Some(inputReference), Some(outputDateTime), Some(messagePriority))
  }

  // ---------------------------------------------------------------------------
  // Properties of the fixed-width layout
  // ---------------------------------------------------------------------------

  /** The sum of the first `n` group widths: where group `n + 1` starts. */
  function GroupStart(n: nat): nat
    requires n <= |GroupWidths|
  {
    if n == 0 then 0 else GroupStart(n - 1) + GroupWidths[n - 1]
  }

  lemma GroupStarts()
    ensures GroupStart(0) == 0 && GroupStart(1) == 1 && GroupStart(2) == 4 && GroupStart(3) == 8
    ensures GroupStart(4) == 14 && GroupStart(5) == 26 && GroupStart(6) == 30 && GroupStart(7) == 36
    ensures GroupStart(8) == 42 && GroupStart(9) == 46 && GroupStart(10) == ContentLength
  {
    assert GroupWidths[0] == 1 && GroupWidths[1] == 3 && GroupWidths[2] == 4 && GroupWidths[3] == 6;
    assert GroupWidths[4] == 12 && GroupWidths[5] == 4 && GroupWidths[6] == 6 && GroupWidths[7] == 6;
    assert GroupWidths[8] == 4 && GroupWidths[9] == 1;
  }

  /**
   * The groups follow the layout: group `k` starts where the widths of the
   * groups before it end and is as wide as the layout says.
   */
  lemma GroupsFollowLayout(content: string, k: nat)
    requires |content| == ContentLength && 1 <= k <= 10
    // groups 2 to 10 lie after the mode; PatternGivesGroups needs this to place them
    ensures 1 <= k - 1 ==> 1 <= GroupStart(k - 1)
    ensures GroupStart(k) <= ContentLength
    ensures Group(content, k) == content[GroupStart(k - 1)..GroupStart(k)]
    ensures |Group(content, k)| == GroupWidths[k - 1]
  {
    GroupStarts();
  }

  /** Groups 1 to `n`, one after the other. */
  function Groups(content: string, n: nat): string
    requires |content| == ContentLength && n <= 10
  {
    if n == 0 then "" else Groups(content, n - 1) + Group(content, n)
  }

  lemma {:induction false} GroupsArePrefix(content: string, n: nat)
    requires |content| == ContentLength && n <= 10
    ensures GroupStart(n) <= ContentLength && Groups(content, n) == content[..GroupStart(n)]
  {
    if n == 0 {
      assert content[..0] == "";
    } else {
      GroupsArePrefix(content, n - 1);
      GroupsFollowLayout(content, n);
      var s, e := GroupStart(n - 1), GroupStart(n);
      assert Groups(content, n) == content[..s] + content[s..e];
      PrefixThenSlice(content, s, e);
    }
  }

  lemma PrefixThenSlice(text: string, s: nat, e: nat)
    requires s <= e <= |text|
    ensures text[..s] + text[s..e] == text[..e]
  {
  }

  /** The ten groups, one after the other, are the whole content: no character is skipped or read twice. */
  lemma GroupsPartitionContent(content: string)
    requires |content| == ContentLength
    ensures Groups(content, 10) == content
  {
    GroupsArePrefix(content, 10);
    GroupStarts();
    assert content[..ContentLength] == content;
  }

  /** Each position after the mode lies in one of the groups 2 to 10. */
  lemma GroupOfPosition(i: int) returns (k: nat)
    requires 1 <= i < ContentLength
    ensures 2 <= k <= 10 && GroupStart(k - 1) <= i < GroupStart(k)
  {
    GroupStarts();
    k := if i < 4 then 2 else if i < 8 then 3 else if i < 14 then 4 else if i < 26 then 5
         else if i < 30 then 6 else if i < 36 then 7 else if i < 42 then 8 else if i < 46 then 9
         else 10;
  }

  /** Characters that `.` matches everywhere after the mode make every group 2 to 10 such characters. */
  lemma PatternGivesGroups(c: string, k: nat)
    requires |c| == ContentLength && 2 <= k <= 10
    requires forall i :: 1 <= i < |c| ==> !IsLineTerminator(c[i])
    ensures AnyChars(Group(c, k))
  {
    GroupsFollowLayout(c, k);
    var g, s := Group(c, k), GroupStart(k - 1);
    forall j | 0 <= j < |g|
      ensures !IsLineTerminator(g[j])
    {
      assert g[j] == c[s + j];
    }
  }

  /** Groups 2 to 10 made of characters that `.` matches cover every position after the mode. */
  lemma GroupsGivePattern(c: string, i: int)
    requires |c| == ContentLength && 1 <= i < |c|
    requires forall k :: 2 <= k <= 10 ==> AnyChars(Group(c, k))
    ensures !IsLineTerminator(c[i])
  {
    var k := GroupOfPosition(i);
    GroupsFollowLayout(c, k);
    assert AnyChars(Group(c, k));
    assert c[i] == Group(c, k)[i - GroupStart(k - 1)];
  }

  /**
   * The content pattern read group by group: 'O' as group 1, then nine groups
   * of the layout's widths made of characters that `.` matches. This is the
   * same as the whole-content check that parsing uses.
   */
  lemma PatternByGroups(content: string)
    ensures MatchesContentPattern(content) <==>
              && |content| == ContentLength
              && Group(content, 1) == ModeCode
              && (forall k :: 2 <= k <= 10 ==> AnyChars(Group(content, k)))
  {
    if |content| == ContentLength {
      var c := content;
      assert Group(c, 1) == ModeCode <==> c[0] == 'O' by {
        assert Group(c, 1) == [c[0]];
      }
      if forall i :: 1 <= i < |c| ==> !IsLineTerminator(c[i]) {
        forall k | 2 <= k <= 10
          ensures AnyChars(Group(c, k))
        {
          PatternGivesGroups(c, k);
        }
      }
      if forall k :: 2 <= k <= 10 ==> AnyChars(Group(c, k)) {
        forall i | 1 <= i < |c|
          ensures !IsLineTerminator(c[i])
        {
          GroupsGivePattern(c, i);
        }
      }
    }
  }

  /** After a successful match the mode group is always "O", so the separate mode check never fails. */
  lemma ModeCheckUnreachable(content: string)
    requires MatchesContentPattern(content)
    ensures Group(content, 1) == ModeCode
  {
    PatternByGroups(content);
  }

  /**
   * The layout's example content, O1001200970103BANKBEBBAXXX22221234569701031201N,
   * written in chunks of eight characters that do not follow the groups, so
   * that the lemmas below check the group offsets against the text.
   */
  const ExampleText: string := "O1001200" + "970103BA" + "NKBEBBAX" + "XX222212" + "34569701" + "031201N"

  lemma ExampleLeadingGroups()
    ensures |ExampleText| == ContentLength
    ensures Group(ExampleText, 1) == "O" && Group(ExampleText, 2) == "100"
    ensures Group(ExampleText, 3) == "1200" && Group(ExampleText, 4) == "970103"
    ensures Group(ExampleText, 5) == "BANKBEBBAXXX"
  {
  }

  lemma ExampleTrailingGroups()
    ensures |ExampleText| == ContentLength
    ensures Group(ExampleText, 6) == "2222"
    ensures Group(ExampleText, 7) == "123456" && Group(ExampleText, 8) == "970103"
    ensures Group(ExampleText, 9) == "1201" && Group(ExampleText, 10) == "N"
  {
  }

  lemma ExampleGroups()
    ensures |ExampleText| == ContentLength
    ensures Group(ExampleText, 1) == "O" && Group(ExampleText, 2) == "100"
    ensures Group(ExampleText, 3) == "1200" && Group(ExampleText, 4) == "970103"
    ensures Group(ExampleText, 5) == "BANKBEBBAXXX" && Group(ExampleText, 6) == "2222"
    ensures Group(ExampleText, 7) == "123456" && Group(ExampleText, 8) == "970103"
    ensures Group(ExampleText, 9) == "1201" && Group(ExampleText, 10) == "N"
  {
    ExampleLeadingGroups();
    ExampleTrailingGroups();
  }

  /** The example's fields after the mode hold no line terminator. */
  lemma ExampleFieldsPlain()
    ensures AnyChars("100") && AnyChars("1200") && AnyChars("970103")
    ensures AnyChars("BANKBEBBAXXX") && AnyChars("2222") && AnyChars("123456")
    ensures AnyChars("1201") && AnyChars("N")
  {
  }

  lemma ExampleMatches()
    ensures MatchesContentPattern(ExampleText)
  {
    ExampleGroups();
    ExampleFieldsPlain();
    forall k | 2 <= k <= 10
      ensures AnyChars(Group(ExampleText, k))
    {
    }
    PatternByGroups(ExampleText);
  }

  /** The layout's example content parses into the fields the format table describes. */
  lemma ExampleContent(parseDateTime: string -> Option<LocalDateTime>, priorityOf: string -> Option<MessagePriority>)
    requires parseDateTime("9701031200").Some? && parseDateTime("9701031201").Some?
    requires priorityOf("N").Some?
    ensures var r := Of(GeneralBlock("2", ExampleText), parseDateTime, priorityOf);
            && r.Success?
            && r.value.messageType == "100"
            && r.value.inputReference == "BANKBEBBAXXX"
            && r.value.sessionNumber == "2222"
            && r.value.sequenceNumber == "123456"
            && Some(r.value.inputDateTime) == parseDateTime("9701031200")
            && Some(r.value.outputDateTime) == parseDateTime("9701031201")
            && Some(r.value.messagePriority) == priorityOf("N")
  {
    ExampleGroups();
    ExampleMatches();
    var c := ExampleText;
    assert c[8..14] + c[4..8] == "9701031200";
    assert c[36..42] + c[42..46] == "9701031201";
  }
}
