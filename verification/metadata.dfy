/**
 * Validation of the store's component properties (`parseMetadata`): a
 * string-to-string property map becomes the store's settings or one error.
 * The connection string is checked first, then the table name, then the
 * optional idle timeout.
 */
module Metadata {
  import opened Wrappers

  const ConnectionStringKey: string := "connectionString"
  const ConfigTableKey: string := "table"
  const ConnMaxIdleTimeKey: string := "connMaxIdleTime"

  /** PostgreSQL's identifier length limit, as the store enforces it. */
  const MaxIdentifierLength: nat := 64

  /** Durations are Go `time.Duration` values: a count of nanoseconds. */
  type Duration = int

  /** The validated settings; `maxIdleTime` is zero unless a timeout was given. */
  datatype StoreMetadata = StoreMetadata(connectionString: string, configTable: string, maxIdleTime: Duration)

  datatype ParseError =
    | MissingConnectionString
    | NonAsciiTableName(table: string)
    | TooLongTableName(table: string)
    | MissingTableName
    | InvalidMaxIdleTime
  {
    /** The text of the Go error value. */
    function Message(): string
    {
      match this
      case MissingConnectionString => "missing postgreSQL connection string"
      case NonAsciiTableName(t) => "invalid table name : '" + t + "'. non-ascii characters are not supported"
      case TooLongTableName(t) =>
        "field name is too long - tableName : '" + t + "'. max allowed field length is 64 "
      case MissingTableName => "missing postgreSQL configuration table name"
      case InvalidMaxIdleTime => "missing PostgreSQL maxTimeout setting in configuration"
    }
  }

  /** A text framed by the same prefix and suffix can be read back from the frame. */
  lemma FramedText(prefix: string, t1: string, t2: string, suffix: string)
    requires prefix + t1 + suffix == prefix + t2 + suffix
    ensures t1 == t2
  {
    var m := prefix + t1 + suffix;
    assert |t1| == |t2|;
    assert t1 == m[|prefix|..|prefix| + |t1|];
    assert t2 == (prefix + t2 + suffix)[|prefix|..|prefix| + |t2|];
  }

  /**
   * Distinct errors have distinct texts: the message tells which check
   * failed, and for the table errors it carries the rejected table name.
   */
  lemma MessageDeterminesError(e1: ParseError, e2: ParseError)
    requires e1.Message() == e2.Message()
    ensures e1 == e2
  {
    if e1.NonAsciiTableName? && e2.NonAsciiTableName? {
      FramedText("invalid table name : '", e1.table, e2.table, "'. non-ascii characters are not supported");
    } else if e1.TooLongTableName? && e2.TooLongTableName? {
      FramedText("field name is too long - tableName : '", e1.table, e2.table, "'. max allowed field length is 64 ");
    } else {
      assert e1.Message()[0] == e2.Message()[0];
      if e1.Message()[0] == 'm' {
        assert |e1.Message()| == |e2.Message()|;
        assert e1.Message()[8] == e2.Message()[8];
      }
    }
  }

  /** The property is set and not the empty string (Go's `ok && val != ""`). */
  predicate Present(props: map<string, string>, key: string)
  {
    key in props && props[key] != ""
  }

  /** Every character is below 128. */
  predicate IsAscii(s: string)
  {
    forall i | 0 <= i < |s| :: s[i] < 128 as char
  }

  /** What an acceptable table name is, stated independently of the order of the checks. */
  predicate TableNameOk(props: map<string, string>)
  {
    Present(props, ConfigTableKey) && IsAscii(props[ConfigTableKey]) && |props[ConfigTableKey]| <= MaxIdentifierLength
  }

  /** The property map is accepted: all three settings are acceptable. */
  predicate Acceptable(props: map<string, string>, parseDuration: string -> Option<Duration>)
  {
    && Present(props, ConnectionStringKey)
    && TableNameOk(props)
    && (Present(props, ConnMaxIdleTimeKey) ==> parseDuration(props[ConnMaxIdleTimeKey]).Some?)
  }

  /**
   * `parseMetadata`. `parseDuration` stands for Go's `time.ParseDuration`,
   * which is not part of this model: it yields `None` where Go returns an error.
   */
  function ParseMetadata(props: map<string, string>, parseDuration: string -> Option<Duration>): (r: Result<StoreMetadata, ParseError>)
    // the connection string is checked before anything else
    ensures r == Failure(MissingConnectionString) <==> !Present(props, ConnectionStringKey)
    // then the table name: missing, then non-ASCII, then too long
    ensures r == Failure(MissingTableName) <==>
      Present(props, ConnectionStringKey) && !Present(props, ConfigTableKey)
    ensures (r.Failure? && r.error.NonAsciiTableName?) <==>
      Present(props, ConnectionStringKey) && Present(props, ConfigTableKey) && !IsAscii(props[ConfigTableKey])
    ensures (r.Failure? && r.error.TooLongTableName?) <==>
      Present(props, ConnectionStringKey) && Present(props, ConfigTableKey) && IsAscii(props[ConfigTableKey])
      && |props[ConfigTableKey]| > MaxIdentifierLength
    ensures r.Failure? && (r.error.NonAsciiTableName? || r.error.TooLongTableName?) ==>
      r.error.table == props[ConfigTableKey]
    // and last the idle timeout, which only a present, unparsable value rejects
    ensures r == Failure(InvalidMaxIdleTime) <==>
      Present(props, ConnectionStringKey) && TableNameOk(props) && Present(props, ConnMaxIdleTimeKey)
      && parseDuration(props[ConnMaxIdleTimeKey]).None?
    ensures r.Success? <==> Acceptable(props, parseDuration)
    // a success carries the inputs unchanged
    ensures r.Success? ==>
      && r.value.connectionString == props[ConnectionStringKey]
      && r.value.configTable == props[ConfigTableKey]
      && r.value.maxIdleTime == (if Present(props, ConnMaxIdleTimeKey)
                                 then parseDuration(props[ConnMaxIdleTimeKey]).value else 0)
  {
    if !Present(props, ConnectionStringKey) then
      Failure(MissingConnectionString)
    else if !Present(props, ConfigTableKey) then
      Failure(MissingTableName)
    else
      var tbl := props[ConfigTableKey];
      if !IsAscii(tbl) then
        Failure(NonAsciiTableName(tbl))
      else if |tbl| > MaxIdentifierLength then
        Failure(TooLongTableName(tbl))
      else if Present(props, ConnMaxIdleTimeKey) then
        match parseDuration(props[ConnMaxIdleTimeKey])
        case Some(t) => Success(StoreMetadata(props[ConnectionStringKey], tbl, t))
        case None => Failure(InvalidMaxIdleTime)
      else
        Success(StoreMetadata(props[ConnectionStringKey], tbl, 0))
  }

  /** The error reported depends only on the first failing check: later properties are never looked at. */
  lemma EarlierErrorWins(props: map<string, string>, extra: string, value: string, parseDuration: string -> Option<Duration>)
    requires ParseMetadata(props, parseDuration).Failure?
    requires extra !in {ConnectionStringKey, ConfigTableKey}
    requires ParseMetadata(props, parseDuration) != Failure(InvalidMaxIdleTime)
    ensures ParseMetadata(props[extra := value], parseDuration) == ParseMetadata(props, parseDuration)
  {
  }
}
