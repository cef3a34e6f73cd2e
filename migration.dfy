/** The flag handling of the migration tool: the three flags --up, --down and
    --fill become either a rejection or the SQL files to run, in order.
    Reading the files, executing them and the database connection are not modelled. */
module Migration {

  const DropFile := "migrations/drop_airport.sql"
  const CreateFile := "migrations/create_airport.sql"
  const FillFile := "migrations/fill_airport.sql"

  /** Why a flag combination is refused (the tool exits with a fatal log line). */
  datatype Rejection = FillWithDown | UpWithDown

  /** What one invocation does. */
  datatype Decision = Reject(reason: Rejection) | Run(files: seq<string>)

  /** The decision for the flags as given on the command line. */
  function Plan(up: bool, down: bool, fill: bool): (d: Decision)
    // --fill with --down is checked first, so all three flags give this rejection
    ensures fill && down ==> d == Reject(FillWithDown)
    ensures up && down && !fill ==> d == Reject(UpWithDown)
    // every other combination is accepted
    ensures d.Run? <==> !down || (!up && !fill)
    // an accepted run always does something, and never both drops and creates
    ensures d.Run? ==> d.files != []
    ensures d.Run? ==> (DropFile in d.files <==> down)
    ensures d.Run? ==> !(DropFile in d.files && CreateFile in d.files)
    // --down runs the drop alone
    ensures d.Run? && down ==> d.files == [DropFile]
    // otherwise create runs (no flags default to --up, --fill implies --up), then fill if asked
    ensures d.Run? && !down ==> d.files[0] == CreateFile
    ensures d.Run? && !down && !fill ==> d.files == [CreateFile]
    ensures d.Run? ==> (FillFile in d.files <==> fill)
    ensures d.Run? && fill ==> d.files == [CreateFile, FillFile]
  {
    if fill && down then Reject(FillWithDown)
    else if up && down then Reject(UpWithDown)
    else
      var effectiveUp := up || (!down && !fill) || fill;
      if down then Run([DropFile])
      else if effectiveUp then Run([CreateFile] + (if fill then [FillFile] else []))
      else Run([])
  }

  /** The tool's flag handling as written: the flags are overwritten in place,
      then the migrations are run in sequence with an early exit after --down. */
  method Migrate(upFlag: bool, downFlag: bool, fillFlag: bool) returns (d: Decision)
    ensures d == Plan(upFlag, downFlag, fillFlag)
  {
    var up, down, fill := upFlag, downFlag, fillFlag;
    if fill && down {
      return Reject(FillWithDown);
    } else if up && down {
      return Reject(UpWithDown);
    } else if !up && !down && !fill {
      up := true;
    }

    if fill {
      up := true;
    }

    var ran: seq<string> := [];
    if down {
      ran := ran + [DropFile];
      return Run(ran);
    } else if up {
      ran := ran + [CreateFile];
      if fill {
        ran := ran + [FillFile];
      }
    }
    return Run(ran);
  }
}
