/** `/api/monday/test-token`: checks the Monday.com connection by reading the board's
    columns and describes them: the board's name, the number of columns, the ids of
    the file columns, and for every column whether its title marks it as the column
    for pictures and videos. */
module TestToken {
  import opened Common

  /** A board column as the Monday.com API lists it. */
  datatype Column = Column(id: string, title: string, columnType: string)

  /** A board; either field may be missing from the reply. */
  datatype Board = Board(name: Option<string>, columns: Option<seq<Column>>)

  /** The reply's `data`, whose `boards` may be missing. */
  datatype BoardsData = BoardsData(boards: Option<seq<Board>>)

  /** What the column query returns; `data` may be missing. */
  datatype Reply = Reply(data: Option<BoardsData>)

  /** The outcome of the column query: it throws, or it returns a reply or nothing. A
      thrown `Error` carries its message; any other thrown value carries none. */
  datatype Fetch = Threw(message: Option<string>) | Returned(reply: Option<Reply>)

  /** A column of the answer's `allColumns`. */
  datatype ColumnView = ColumnView(id: string, title: string, columnType: string, isImageVideoColumn: bool)

  /** The answer: a failure (status 500, `success: false`) or the board's description. */
  datatype TestResult =
    | Failed(error: string, details: string)
    | Connected(boardName: string, columnCount: nat, filesColumns: seq<string>, allColumns: seq<ColumnView>)

  const NoConnection: string := "Failed to connect to Monday.com API"
  const NoConnectionDetails: string := "Check API token and board ID configuration"
  const TestFailed: string := "Monday.com API test failed"
  const UnknownBoard: string := "Unknown"
  const UnknownError: string := "Unknown error"

  const PictureWord: string := "รูป"
  const VideoWord: string := "วีดิโอ"
  const PictureVideoTitle: string := "รูป/วีดิโอประกอบ"

  /** `data?.boards?.[0]`: the first board, when the reply has one. */
  function FirstBoard(reply: Reply): (b: Option<Board>)
    ensures b.Some? <==> reply.data.Some? && reply.data.value.boards.Some? && |reply.data.value.boards.value| > 0
  {
    if reply.data.Some? && reply.data.value.boards.Some? && |reply.data.value.boards.value| > 0
    then Some(reply.data.value.boards.value[0])
    else None
  }

  /** The first board's columns, empty when any step of the path is missing. */
  function BoardColumns(reply: Reply): (cols: seq<Column>)
    ensures cols != [] ==> FirstBoard(reply).Some? && FirstBoard(reply).value.columns == Some(cols)
    ensures FirstBoard(reply).Some? && FirstBoard(reply).value.columns.Some? ==> cols == FirstBoard(reply).value.columns.value
  {
    match FirstBoard(reply)
    case None => []
    case Some(b) => if b.columns.Some? then b.columns.value else []
  }

  /** The ids of the file columns, in board order. */
  function FilesColumns(cols: seq<Column>): (ids: seq<string>)
    ensures |ids| <= |cols|
    ensures forall id :: id in ids <==> exists k :: 0 <= k < |cols| && cols[k].columnType == "file" && cols[k].id == id
  {
    if cols == [] then []
    else
      var rest := FilesColumns(cols[1..]);
      assert forall k :: 1 <= k < |cols| ==> cols[k] == cols[1..][k - 1];
      if cols[0].columnType == "file" then [cols[0].id] + rest else rest
  }

  /** Filtering distributes over concatenation: the ids keep the board's order. */
  lemma {:induction false} FilesColumnsAppend(a: seq<Column>, b: seq<Column>)
    ensures FilesColumns(a + b) == FilesColumns(a) + FilesColumns(b)
  {
    if a != [] {
      assert (a + b)[1..] == a[1..] + b;
      FilesColumnsAppend(a[1..], b);
    } else {
      assert a + b == b;
    }
  }

  /** The title rule: the picture/video title, or a title naming pictures or videos. */
  predicate IsImageVideoColumn(title: string) {
    Contains(title, PictureVideoTitle) || Contains(title, PictureWord) || Contains(title, VideoWord)
  }

  /** The first keyword is redundant: the rule is "names pictures or videos". */
  lemma ImageVideoRule(title: string)
    ensures IsImageVideoColumn(title) <==> Contains(title, PictureWord) || Contains(title, VideoWord)
  {
    if Contains(title, PictureVideoTitle) {
      assert PictureVideoTitle == PictureWord + "/วีดิโอประกอบ";
      ContainsPrefixOfNeedle(title, PictureWord, "/วีดิโอประกอบ");
    }
  }

  /** `allColumns`: each column's id, title and type, and the title rule, in order. */
  function AllColumns(cols: seq<Column>): (views: seq<ColumnView>)
    ensures |views| == |cols|
    ensures forall k :: 0 <= k < |cols| ==>
      && views[k].id == cols[k].id && views[k].title == cols[k].title && views[k].columnType == cols[k].columnType
      && (views[k].isImageVideoColumn <==> IsImageVideoColumn(cols[k].title))
  {
    if cols == [] then []
    else [ColumnView(cols[0].id, cols[0].title, cols[0].columnType, IsImageVideoColumn(cols[0].title))] + AllColumns(cols[1..])
  }

  /** GET: a thrown query fails with its message ("Unknown error" for a thrown value
      that is not an `Error`), no reply fails with the connection
      hint; otherwise the board's name ("Unknown" when missing or empty), the number
      of columns and the file columns' ids. */
  function Test(fetch: Fetch): (r: TestResult)
    ensures r.Failed? <==> fetch.Threw? || fetch.reply.None?
    ensures fetch.Threw? && fetch.message.Some? ==> r == Failed(TestFailed, fetch.message.value)
    ensures fetch.Threw? && fetch.message.None? ==> r == Failed(TestFailed, UnknownError)
    ensures fetch == Returned(None) ==> r == Failed(NoConnection, NoConnectionDetails)
    ensures fetch.Returned? && fetch.reply.Some? ==>
      var reply := fetch.reply.value;
      var name := if FirstBoard(reply).Some? then FirstBoard(reply).value.name else None;
      && r.Connected?
      && r.boardName == (if Truthy(name) then name.value else UnknownBoard)
      && r.filesColumns == FilesColumns(BoardColumns(reply))
      && r.allColumns == AllColumns(BoardColumns(reply))
    ensures r.Connected? ==>
      && r.boardName != ""
      && r.columnCount == |r.allColumns| == |BoardColumns(fetch.reply.value)|
      && (forall id :: id in r.filesColumns <==>
            exists k :: 0 <= k < |r.allColumns| && r.allColumns[k].columnType == "file" && r.allColumns[k].id == id)
  {
    match fetch
    case Threw(None) => Failed(TestFailed, UnknownError)
    case Threw(Some(message)) => Failed(TestFailed, message)
    case Returned(None) => Failed(NoConnection, NoConnectionDetails)
    case Returned(Some(reply)) =>
      var cols := BoardColumns(reply);
      var name := match FirstBoard(reply) case None => None case Some(b) => b.name;
      Connected(OrElse(name, UnknownBoard), |cols|, FilesColumns(cols), AllColumns(cols))
  }

  /** A reply without a board still connects, describing an empty, unnamed board. */
  lemma NoBoardDescribedEmpty(reply: Reply)
    requires FirstBoard(reply).None?
    ensures Test(Returned(Some(reply))) == Connected(UnknownBoard, 0, [], [])
  {
  }
}
