/** The Python runtime vocabulary the rest of the model is written in: optional
    values, the exceptions a call raises (as the error half of a result), string
    rendering, and the one-column and two-column pandas frames the pipeline builds. */
module Py {

  datatype Option<+T> = None | Some(value: T)

  /** The exceptions the modelled code raises or lets through. `Raised` stands for an
      exception thrown by a foreign library and propagated unchanged. */
  datatype Error =
    | FileNotFoundError(message: string)
    | RuntimeError(message: string)
    | KeyError(key: string)
    | ValueError(message: string)
    | TypeError(message: string)
    | Raised(message: string)

  /** The outcome of a Python call: its return value, or the exception it raised. */
  datatype Result<+T> = Ok(value: T) | Err(error: Error)

  /** `f"{x}"` for a value that is a string or `None`. */
  function Render(o: Option<string>): (r: string)
    ensures o.None? ==> r == "None"
    ensures o.Some? ==> r == o.value
  {
    match o
    case Some(s) => s
    case None => "None"
  }

  /** A pandas DataFrame of string cells, column-major: `data[j]` is the column
      named `columns[j]`. */
  datatype Frame = Frame(columns: seq<string>, data: seq<seq<string>>)

  /** `df[name]`: the first column with that name, or `None` where pandas raises. */
  function Column(f: Frame, name: string): (r: Option<seq<string>>)
    ensures r.Some? <==> exists j :: 0 <= j < |f.columns| && j < |f.data| && f.columns[j] == name
    ensures r.Some? ==> exists j :: 0 <= j < |f.columns| && j < |f.data| && f.columns[j] == name && r.value == f.data[j]
    decreases |f.columns|
  {
    if |f.columns| == 0 || |f.data| == 0 then None
    else if f.columns[0] == name then Some(f.data[0])
    else
      var rest := Column(Frame(f.columns[1..], f.data[1..]), name);
      assert rest.Some? ==> exists j :: 1 <= j < |f.columns| && j < |f.data| && f.columns[j] == name && rest.value == f.data[j] by {
        if rest.Some? {
          var j :| 0 <= j < |f.columns[1..]| && j < |f.data[1..]| && f.columns[1..][j] == name && rest.value == f.data[1..][j];
          assert f.columns[j + 1] == name && f.data[j + 1] == rest.value;
        }
      }
      assert (exists j :: 1 <= j < |f.columns| && j < |f.data| && f.columns[j] == name) ==> rest.Some? by {
        if exists j :: 1 <= j < |f.columns| && j < |f.data| && f.columns[j] == name {
          var j :| 1 <= j < |f.columns| && j < |f.data| && f.columns[j] == name;
          assert f.columns[1..][j - 1] == name;
        }
      }
      rest
  }
}
