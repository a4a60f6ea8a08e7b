/** The stateful side of the desktop client: the history table widget, the
    dashboard window whose `LoadData` refreshes KPIs, table and charts in place,
    and the login dialog's input guard. Each method is proved to leave the view
    that the pure functions of `History` describe. */
module Desktop {
  import opened Python
  import opened Formatting
  import opened Charts
  import opened History

  /** A row of `cols` empty cells. */
  function EmptyRow(cols: nat): (r: seq<Cell>)
    ensures |r| == cols && forall c :: 0 <= c < cols ==> r[c] == Empty
  {
    seq(cols, c => Empty)
  }

  /** `setRowCount(n)`: rows beyond `n` are dropped, missing rows are added empty. */
  function Resized(rows: seq<seq<Cell>>, n: nat, cols: nat): (r: seq<seq<Cell>>)
    ensures |r| == n
    ensures forall i :: 0 <= i < n && i < |rows| ==> r[i] == rows[i]
    ensures forall i :: |rows| <= i < n ==> r[i] == EmptyRow(cols)
  {
    if n <= |rows| then rows[..n] else rows + seq(n - |rows|, _ => EmptyRow(cols))
  }

  /** `QTableWidget`: a grid of cells with a fixed number of columns. */
  class Table {
    const columnCount: nat
    var rows: seq<seq<Cell>>

    ghost predicate Valid()
      reads this
    {
      forall r :: 0 <= r < |rows| ==> |rows[r]| == columnCount
    }

    constructor (columns: nat)
      ensures Valid() && columnCount == columns && rows == []
    {
      columnCount := columns;
      rows := [];
    }

    method SetRowCount(n: nat)
      requires Valid()
      modifies this
      ensures Valid()
      ensures rows == Resized(old(rows), n, columnCount)
    {
      rows := Resized(rows, n, columnCount);
    }

    /** `setItem(row, col, item)`; a position outside the grid is ignored. */
    method SetItem(row: nat, col: nat, text: string)
      requires Valid()
      modifies this
      ensures Valid()
      ensures row < |old(rows)| && col < columnCount ==>
        rows == old(rows)[row := old(rows)[row][col := Item(text)]]
      ensures row >= |old(rows)| || col >= columnCount ==> rows == old(rows)
    {
      if row < |rows| && col < columnCount {
        rows := rows[row := rows[row][col := Item(text)]];
      }
    }
  }

  const NO_FILE_LABEL: string := "No file selected"
  const SELECT_FILE_MESSAGE: string := "Please select a CSV file first"
  const UPLOADING_MESSAGE: string := "Uploading..."
  const UPLOADED_MESSAGE: string := "Uploaded successfully \U{2713}"

  /** `not self.file_path`: no path, or an empty one. */
  predicate NoFile(path: Option<string>): (b: bool)
    ensures !b <==> path.Some? && |path.value| > 0
  {
    path == None || path == Some("")
  }

  /** The dashboard window, reduced to what its data operations touch. */
  class Dashboard {
    var kpiTotal: string
    var kpiFlow: string
    var kpiPressure: string
    var kpiTemp: string
    var status: string
    var fileLabel: string
    var filePath: Option<string>
    const table: Table
    const barCanvas: Canvas
    const pieCanvas: Canvas
    const lineCanvas: Canvas

    /** Four columns, three distinct canvases, all of them themed. */
    ghost predicate Valid()
      reads this, table, barCanvas, pieCanvas, lineCanvas
    {
      table.columnCount == 4 && table.Valid() &&
      barCanvas != pieCanvas && barCanvas != lineCanvas && pieCanvas != lineCanvas &&
      Themed(barCanvas.State()) && Themed(pieCanvas.State()) && Themed(lineCanvas.State())
    }

    /** What the dashboard currently shows. */
    function View(): DashboardView
      reads this, table, barCanvas, pieCanvas, lineCanvas
    {
      DashboardView([kpiTotal, kpiFlow, kpiPressure, kpiTemp], table.rows,
                    barCanvas.State(), pieCanvas.State(), lineCanvas.State())
    }

    /** `__init__`: KPIs show the placeholder, the table is empty, then the
        history fetched at start-up is loaded. */
    constructor (rt: Runtime, history: seq<UploadRecord>)
      ensures Valid()
      ensures View() == Refreshed(rt, InitialView, history)
      ensures status == "" && fileLabel == NO_FILE_LABEL && filePath == None
    {
      kpiTotal, kpiFlow, kpiPressure, kpiTemp := PLACEHOLDER, PLACEHOLDER, PLACEHOLDER, PLACEHOLDER;
      status, fileLabel, filePath := "", NO_FILE_LABEL, None;
      barCanvas := new Canvas();
      table := new Table(4);
      pieCanvas := new Canvas();
      lineCanvas := new Canvas();
      new;
      LoadData(rt, history);
    }

    /** `load_data()`, with the fetched history as a parameter. */
    method LoadData(rt: Runtime, history: seq<UploadRecord>)
      requires Valid()
      modifies this, table, barCanvas, pieCanvas, lineCanvas
      ensures Valid()
      ensures View() == Refreshed(rt, old(View()), history)
      ensures status == old(status) && fileLabel == old(fileLabel) && filePath == old(filePath)
    {
      if history == [] {
        return;
      }
      var latest := history[0].summary;
      ShowKpis(rt, latest);
      FillTable(rt, history);
      DrawDistribution(Distribution(latest));

      DrawTrend(history);
    }

    /** The KPI part of `load_data`: each tile shows `safe` of one scalar of the
        latest summary. */
    method ShowKpis(rt: Runtime, latest: Summary)
      modifies this`kpiTotal, this`kpiFlow, this`kpiPressure, this`kpiTemp
      ensures [kpiTotal, kpiFlow, kpiPressure, kpiTemp] == Kpis(rt, latest)
    {
      kpiTotal := Safe(rt, latest.totalEquipment);
      kpiFlow := Safe(rt, latest.avgFlowrate);
      kpiPressure := Safe(rt, latest.avgPressure);
      kpiTemp := Safe(rt, latest.avgTemperature);
    }

    /** The distribution part of `load_data`: the same keys and values are drawn
        as bars on both the bar canvas and the pie canvas. */
    method DrawDistribution(dist: seq<(string, PyValue)>)
      requires barCanvas != pieCanvas
      modifies barCanvas, pieCanvas
      ensures barCanvas.State() == AfterBar(old(barCanvas.State()), Keys(dist), Values(dist), DISTRIBUTION_TITLE)
      ensures pieCanvas.State() == AfterBar(old(pieCanvas.State()), Keys(dist), Values(dist), DISTRIBUTION_TITLE)
    {
      barCanvas.Bar(Keys(dist), Values(dist), DISTRIBUTION_TITLE);
      pieCanvas.Bar(Keys(dist), Values(dist), DISTRIBUTION_TITLE);
    }

    /** The trend part of `load_data`: the first five records reversed into
        chronological order, one line per metric over the labels "#1".."#n". */
    method DrawTrend(history: seq<UploadRecord>)
      modifies lineCanvas
      ensures lineCanvas.State() ==
        AfterLines(old(lineCanvas.State()), TrendLabels(|Window(history)|), TrendSeries(history), TREND_TITLE)
    {
      var n := if |history| < 5 then |history| else 5;
      var ordered := Reversed(history[..n]);
      assert history[..n] == Window(history);
      lineCanvas.Lines(TrendLabels(|ordered|),
        [("Flow", Column(ordered, Flow)), ("Pressure", Column(ordered, Pressure)), ("Temp", Column(ordered, Temp))],
        TREND_TITLE);
    }

    /** The table part of `load_data`: `setRowCount(min(5, len(data)))`, then
        the loop over `enumerate(data[:5])` writing four cells per row. */
    method FillTable(rt: Runtime, history: seq<UploadRecord>)
      requires table.Valid() && table.columnCount == 4
      modifies table
      ensures table.Valid()
      ensures table.rows == TableRows(rt, history)
    {
      var n := if |history| < 5 then |history| else 5;
      table.SetRowCount(n);
      var r := 0;
      while r < n
        modifies table
        invariant 0 <= r <= n
        invariant table.Valid() && |table.rows| == n
        invariant forall i :: 0 <= i < r ==> table.rows[i] == TableRow(rt, history[i])
      {
        WriteRow(rt, r, history[r]);
        r := r + 1;
      }

      assert table.rows == TableRows(rt, history);
    }

    /** One iteration of the table loop: the four cells of row `r`. */
    method WriteRow(rt: Runtime, r: nat, item: UploadRecord)
      requires table.Valid() && table.columnCount == 4 && r < |table.rows|
      modifies table
      ensures table.Valid()
      ensures table.rows == old(table.rows)[r := TableRow(rt, item)]
    {
      var s := item.summary;
      table.SetItem(r, 0, item.filename);
      table.SetItem(r, 1, FormatDatetime(rt, item.uploadedAt));
      table.SetItem(r, 2, Str(rt, s.totalEquipment));
      table.SetItem(r, 3, Str(rt, s.avgFlowrate));
      assert table.rows[r] == [Item(item.filename), Item(FormatDatetime(rt, item.uploadedAt)),
                               Item(Str(rt, s.totalEquipment)), Item(Str(rt, s.avgFlowrate))];
    }

    /** `do_upload()`: `upload` is what `upload_csv` did and `fetched` what the
        subsequent `get_history` returned; an exception from either ends up in
        the status line. */
    method DoUpload(rt: Runtime, upload: Result<()>, fetched: Result<seq<UploadRecord>>)
      requires Valid()
      modifies this, table, barCanvas, pieCanvas, lineCanvas
      ensures Valid()
      ensures NoFile(old(filePath)) ==>
        status == SELECT_FILE_MESSAGE && fileLabel == old(fileLabel) && filePath == old(filePath) &&
        View() == old(View())
      ensures !NoFile(old(filePath)) && upload.Raised? ==>
        status == upload.message && fileLabel == old(fileLabel) && filePath == old(filePath) &&
        View() == old(View())
      ensures !NoFile(old(filePath)) && upload.Ok? ==>
        fileLabel == NO_FILE_LABEL && filePath == None &&
        (fetched.Raised? ==> status == fetched.message && View() == old(View())) &&
        (fetched.Ok? ==> status == UPLOADED_MESSAGE && View() == Refreshed(rt, old(View()), fetched.value))
    {
      if NoFile(filePath) {
        status := SELECT_FILE_MESSAGE;
        return;
      }
      status := UPLOADING_MESSAGE;
      if upload.Raised? {
        status := upload.message;
        return;
      }
      status := UPLOADED_MESSAGE;
      fileLabel := NO_FILE_LABEL;
      filePath := None;
      match fetched
      case Raised(message) =>
        status := message;
      case Ok(history) =>
        LoadData(rt, history);
    }
  }

  const MISSING_CREDENTIALS_MESSAGE: string := "Enter username and password"

  /** The login dialog: the two input fields, the status line and whether the
      dialog was accepted. */
  class LoginDialog {
    var user: string
    var password: string
    var status: string
    var accepted: bool

    /** `__init__`: both line edits start empty, as does the status line. */
    constructor ()
      ensures user == "" && password == ""
      ensures status == "" && !accepted
    {
      user, password := "", "";
      status, accepted := "", false;
    }

    /** The user editing the two line edits: only their texts change. */
    method Type(u: string, p: string)
      modifies this
      ensures user == u && password == p
      ensures status == old(status) && accepted == old(accepted)
    {
      user, password := u, p;
    }

    /** `do_login()`: the server is contacted only when neither field is blank
        after stripping whitespace; `login` is what that call did. */
    method DoLogin(login: Result<()>) returns (contacted: bool)
      modifies this
      ensures contacted <==> Strip(old(user)) != "" && Strip(old(password)) != ""
      ensures user == old(user) && password == old(password)
      ensures !contacted ==> status == MISSING_CREDENTIALS_MESSAGE && accepted == old(accepted)
      ensures contacted && login.Ok? ==> accepted && status == old(status)
      ensures contacted && login.Raised? ==> status == login.message && accepted == old(accepted)
    {
      if Strip(user) == "" || Strip(password) == "" {
        status := MISSING_CREDENTIALS_MESSAGE;
        return false;
      }
      contacted := true;
      match login
      case Ok(_) =>
        accepted := true;
      case Raised(message) =>
        status := message;
    }
  }
}
