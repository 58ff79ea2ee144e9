/** The local machine: directories, text files and standard output. CSV parsing is
    the `csv` library's and stays behind the `parseCsv` function. */
module Machine {
  import opened Wrappers

  /** One CSV row as `csv.DictReader` yields it: header name to cell text. */
  type Row = map<string, string>

  /** What the tool can observe and change on the local machine. */
  datatype Local = Local(dirs: set<string>, files: map<string, string>, stdout: string)

  class Host {
    const parseCsv: string -> seq<Row>
    var dirs: set<string>
    var files: map<string, string>
    var stdout: string

    constructor (parseCsv: string -> seq<Row>, start: Local)
      ensures this.parseCsv == parseCsv && State() == start
    {
      this.parseCsv := parseCsv;
      dirs, files, stdout := start.dirs, start.files, start.stdout;
    }

    function State(): Local
      reads this
    {
      Local(dirs, files, stdout)
    }

    /** `Path(path).mkdir(exist_ok=True)`. */
    method MakeDir(path: string)
      modifies this
      ensures State() == old(State()).(dirs := old(dirs) + {path})
    {
      dirs := dirs + {path};
    }

    /** `open(path, 'w')`: the file exists afterwards and is empty. */
    method OpenForWrite(path: string)
      modifies this
      ensures State() == old(State()).(files := old(files)[path := ""])
    {
      files := files[path := ""];
    }

    /** `f.write(text)` on a file opened for writing. */
    method Write(path: string, text: string)
      requires path in files
      modifies this
      ensures State() == old(State()).(files := old(files)[path := old(files)[path] + text])
    {
      files := files[path := files[path] + text];
    }

    /** `print(text)`: the text and a newline go to standard output. */
    method Print(text: string)
      modifies this
      ensures State() == old(State()).(stdout := old(stdout) + text + "\n")
    {
      stdout := stdout + text + "\n";
    }

    /** `csv.DictReader(open(path))`: the rows of the file, or the error of opening a
        file that is not there. */
    method ReadCsv(path: string) returns (r: Result<seq<Row>, Error>)
      ensures path in files ==> r == Ok(parseCsv(files[path]))
      ensures path !in files ==> r == Err(FileNotFound(path))
    {
      if path in files {
        r := Ok(parseCsv(files[path]));
      } else {
        r := Err(FileNotFound(path));
      }
    }
  }
}
