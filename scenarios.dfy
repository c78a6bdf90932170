/** Whole-record cases: a raw row wrapped and then rendered. */
module Scenarios {
  import opened Wrappers
  import opened GoStrings
  import opened BytesExtra
  import opened Media
  import opened Messages

  /** The entry of a received "hi" from "bob" in group chat 7001@chatroom, with the room shown. */
  lemma GroupChatTranscript(m: Message, stamp: string)
    requires m.IsSender == 0 && m.IsChatRoom && m.ChatRoomSender == "bob"
    requires m.Talker == "7001@chatroom" && m.DisplayName == "" && m.ChatRoomName == ""
    ensures var t := Transcript(m, true, stamp, "hi");
      && |t| >= 20 && t[..4] == "bob " && t[4..20] == "[7001@chatroom] " && t[|t| - 3..] == "hi\n"
  {
    assert Speaker(m) == "bob" && RoomTag(m, true) == "[7001@chatroom] ";
    var t := Transcript(m, true, stamp, "hi");
    assert t == "bob [7001@chatroom] " + (stamp + "\nhi\n");
    assert t == ("bob [7001@chatroom] " + stamp) + "\nhi\n";
  }

  /**
   * A received text "hi" in group chat 7001@chatroom whose metadata names
   * "bob" as sender, rendered with the room shown: the entry starts with
   * "bob ", then "[7001@chatroom] ", and ends with "hi" and a line break,
   * whatever the timestamp formatter gives.
   */
  method GroupChatEntry(formatTime: int -> string, describe: MediaView -> string) returns (text: string)
    ensures |text| >= 20
    ensures text[..4] == "bob "
    ensures text[4..20] == "[7001@chatroom] "
    ensures text[|text| - 3..] == "hi\n"
  {
    var row := MessageV3(1700000000001, 1700000000, 7, "7001@chatroom", 0, TextType, 0, "hi", [], [1]);
    var decode: seq<uint8> -> Option<seq<Item>> := _ => Some([Item(SenderTag, "bob")]);
    var parse: (int, string) -> Option<MediaView> := (_, _) => None;
    var ops := Collaborators(_ => None, decode, parse, '/');
    assert HasSuffix(row.StrTalker, ChatRoomSuffix) by {
      assert "7001@chatroom"[4..] == ChatRoomSuffix;
    }
    assert WrappedSender(row, ops) == "bob";
    var m := Wrap(row, ops);
    assert m.MediaMessage == null && m.Content == "hi";
    text := m.PlainText(true, "h", formatTime, describe);
    GroupChatTranscript(m, formatTime(m.CreateTime));
  }

  /**
   * The video row on which Wrap as written writes through a nil media
   * description: its media parse fails, its metadata decodes. Wrap keeps it
   * without a media description and never fails.
   */
  method VideoWithoutMedia() returns (hasMedia: bool)
    ensures !hasMedia
  {
    var row := MessageV3(0, 0, 0, "alice", 0, VideoType, 0, "<msg/>", [], [1]);
    var decode: seq<uint8> -> Option<seq<Item>> := _ => Some([Item(VideoPathTag, "root/video/v.mp4")]);
    var parse: (int, string) -> Option<MediaView> := (_, _) => None;
    var ops := Collaborators(_ => None, decode, parse, '/');
    NilMediaPathWriteReachable(row, ops);
    var m := Wrap(row, ops);
    hasMedia := m.MediaMessage != null;
  }
}
