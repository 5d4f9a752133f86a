/** The part of a zap structured logger the core uses: a logger is a sink plus the
    fields accumulated with `With`; logging at a level produces one entry, or none
    on the no-op logger. */
module Zap {
  import Errors

  datatype Level = Debug | Info | Warn | Error

  datatype FieldValue =
    | Str(s: string)
    | Int(i: int)
    | Duration(nanos: int)
    | ErrorField(err: Errors.Error)

  datatype Field = Field(key: string, value: FieldValue)

  /** Where entries go: nowhere (zap.NewNop) or a real sink. */
  datatype Core = Nop | Sink(id: nat)

  datatype Logger = Logger(core: Core, fields: seq<Field>)

  datatype Entry = Entry(sink: nat, level: Level, message: string, fields: seq<Field>)

  /** zap.NewNop() */
  function NewNop(): Logger {
    Logger(Nop, [])
  }

  /** (*zap.Logger).With: a child logger carrying extra fields after the parent's. */
  function With(l: Logger, fs: seq<Field>): (r: Logger)
    ensures r.core == l.core && |r.fields| == |l.fields| + |fs|
    ensures r.fields[..|l.fields|] == l.fields && r.fields[|l.fields|..] == fs
  {
    Logger(l.core, l.fields + fs)
  }

  /** l.Info / l.Warn / l.Error with extra fields: the entries written. */
  function Log(l: Logger, level: Level, message: string, extra: seq<Field>): (es: seq<Entry>)
    ensures |es| <= 1
    ensures es != [] <==> l.core.Sink?
    ensures forall e :: e in es ==> e.level == level && e.message == message && e.fields == l.fields + extra
  {
    if l.core.Nop? then [] else [Entry(l.core.id, level, message, l.fields + extra)]
  }
}
