# lightlog — a verified model of the queued leveled logger

lightlog is a small Go logging package. A `Logger` has a minimum level, an optional
console writer, an optional file writer, a prefix, a time-format layout and a queue
(a Go channel). Producers call `Log` (or `Debug`, `Info`, `Warn`, `Error`, `Fatal`).
`Log` joins its string arguments into one trimmed message and enqueues one record,
but only when at least one argument was given. A single consumer, `LogWriter`, takes
records off the queue in order. It drops a record whose level is below the minimum.
Otherwise it writes one coloured line to the console writer and one plain line to the
file writer, and skips a writer that is nil.

This project models that pipeline in Dafny:

- `levels.dfy` (module `Levels`): the seven ordered levels, the size units KB..TB, the
  level-to-name mapping `level` and the level-to-colour mapping `color`. The colour codes
  keep their real escape bytes.
- `text.dfy` (module `Text`): Go's `strings.TrimSpace` over `unicode.IsSpace`, and a
  character count used to talk about escape codes.
- `messages.dfy` (module `Messages`): the message fold of `Log` as a loop (`Compose`). It
  is proved equal to the specification function `Message`, and `Message` is related to a
  reference join.
- `logging.dfy` (module `Logging`): records, the console and file line formats, the
  per-writer output specification `Render`/`RenderAll`, and the `Logger` class. `Log`
  appends to the `queue` field. `Consume` is one turn of the consumer loop. `LogWriter`
  runs that loop until the queue is empty. Writers are `Sink` objects, so a logger whose
  console and file writers are the same object is covered: that writer receives both
  lines, console line first.

The console line is `[prefix] stamp: <colour> [LEVEL] <reset> message` (lightlog.go:110).
The level name is in brackets, and the colour code and the reset code each have a single
space on both sides.

## Model

| member | source | states |
|---|---|---|
| `Levels.NamedLevelsIncrease` | lightlog.go:15-23 | the seven named levels are 0..6 in declaration order, strictly increasing |
| `Levels.AllAndNoneBounds` | lightlog.go:15-23 | minimum level All admits every named level; minimum level None admits only None itself |
| `Levels.UnitStep` | lightlog.go:25-35 | each size unit `1 << (10k)` is 1024 times the previous one |
| `Levels.UnitsScale` | lightlog.go:25-35 | KB = 1024, MB = 1024 KB, GB = 1024 MB, TB = 1024 GB, and TB fits in a uint64 |
| `Levels.LevelName` | lightlog.go:87-100 | the name is FATAL exactly for levels outside Debug..Error, and is 4 or 5 characters long |
| `Levels.LevelNameTable` | lightlog.go:87-100 | All..None print as FATAL, DEBUG, INFO, WARN, ERROR, FATAL, FATAL |
| `Levels.LevelNameInjective` | lightlog.go:87-100 | two levels with the same name are equal unless the name is FATAL |
| `Levels.Colour` | lightlog.go:74-85 | the colour is one escape code, and it is red exactly for levels outside Debug..Warning |
| `Levels.ColourTable` | lightlog.go:74-85 | All..None are coloured red, cyan, green, yellow, red, red, red |
| `Levels.ColourInjective` | lightlog.go:74-85 | two levels with the same colour are equal unless the colour is red |
| `Levels.ResetIsNotAColour` | lightlog.go:38-47 | the reset code is an escape code and differs from every level colour |
| `Text.TrimSpace` | lightlog.go:149 | the result is empty iff the input is all white space; a non-empty result neither starts nor ends with white space |
| `Text.TrimSpaceIsInfix` | lightlog.go:149 | the input is white space, then the result, then white space |
| `Text.TrimSpaceOfPadded` | lightlog.go:149 | white space padded around a string with non-space ends is removed exactly |
| `Messages.Compose` | lightlog.go:144-150 | the fold `s = s + " " + t` followed by a trim yields `Message(e)` |
| `Messages.SpacedIsJoin` | lightlog.go:145-148 | for one or more parts the folded string is a space followed by the parts joined with single spaces |
| `Messages.MessageShape` | lightlog.go:144-150 | the message has no leading or trailing white space, and is empty iff every part is blank |
| `Messages.MessageOfCleanParts` | lightlog.go:144-150 | when every part is non-empty without surrounding white space, the message is the parts joined by single spaces |
| `Logging.FileLineEscapes` | lightlog.go:113 | the file line adds no escape character to those in the prefix, stamp and message |
| `Logging.ConsoleLineEscapes` | lightlog.go:110 | the console line adds exactly two escape characters, the colour and the reset code |
| `Logging.EscapesOnlyOnConsole` | lightlog.go:109-114 | the console line holds exactly two escape characters more than the file line for the same record |
| `Logging.RenderAllFilters` | lightlog.go:104-116 | a writer receives exactly the lines of the admitted records, in queue order |
| `Logging.RenderAllAppend` | lightlog.go:104-116 | handling two batches in order writes the first batch's lines and then the second's |
| `Logging.RenderAllCount` | lightlog.go:104-116 | a writer receives one line per admitted record and per output it is bound to |
| `Logging.RenderAllSilent` | lightlog.go:106-115 | a writer bound to an output receives nothing iff every record is below the minimum level |
| `Logging.AllAndNoneFilter` | lightlog.go:106 | minimum level All passes every record at level All or above; minimum level None stops every record at Fatal or below |
| `Logging.Logger.constructor` | lightlog.go:120-136 | a new logger has level Info, prefix "lightlog", layout "2006-01-02 15:04:05", the given console writer, no file writer and an empty queue |
| `Logging.Logger.Log` | lightlog.go:139-154 | no arguments leave the queue unchanged; otherwise exactly one record with the given level, time and message is appended |
| `Logging.Logger.Debug` | lightlog.go:157-159 | as `Log` at level Debug |
| `Logging.Logger.Info` | lightlog.go:162-164 | as `Log` at level Info |
| `Logging.Logger.Warn` | lightlog.go:167-169 | as `Log` at level Warning |
| `Logging.Logger.Error` | lightlog.go:172-174 | as `Log` at level Error |
| `Logging.Logger.Fatal` | lightlog.go:177-179 | as `Log` at level Fatal |
| `Logging.Logger.Consume` | lightlog.go:105-115 | the head record is removed; each non-nil writer gets the head's lines for the outputs it is bound to, and nothing if the record is below the minimum level; nothing else changes |
| `Logging.Logger.LogWriter` | lightlog.go:103-117 | after draining the queue, each non-nil writer has received the lines of every queued record in enqueue order |

## Left out

- Goroutine and channel mechanics are not modelled. This covers `go LogWriter(lg)`, the blocking send in `Log`, and the unbuffered or buffered channel chosen by `NewLogger`'s `bufferSize`. The queue is a FIFO sequence, and the constructor takes no buffer size.
- `LogWriter` never returns in the source; it blocks on an empty channel. The model runs the loop until the queue is empty.
- The clock read `time.Now()` is the `now` parameter of `Log`. `time.Time.Format` is the `format` parameter of `Consume` and `LogWriter`, applied to the record's time and the logger's layout at write time, as in the source.
- `fmt.Fprintf` onto an `io.Writer` is modelled as appending one line to a `Sink`; write errors, which the source ignores, are not modelled.
- `errors.New` wrapping is dropped: a record carries its message text directly.
- Go strings are byte sequences; the model works on code points, so invalid UTF-8 input to `TrimSpace` is not modelled.
- `LogLevel` is an unbounded integer; the source only compares levels, so Go's `int` width has no effect.
- Clients changing the public fields (`Level`, `Prefix`, writers) while the consumer runs is a data race in the source and is not modelled.
- The colours white, blue and magenta are declared in the source but never used; the model declares them and proves nothing about them.
- lightlog.go has no file rotation, retention, size check or locking, so the model has none.
