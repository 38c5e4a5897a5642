/** ConsumerConfiguration: the immutable per-connection settings a consumer
    is built with. It names the checkpoint file and, applied to the
    replication library's ConfigBuilder, calls `with<key>(value)` for every
    key the builder has a method for. */
module Configuration {
  import opened Base
  import opened Replication

  datatype Entry = Entry(key: string, value: Value)

  /** A PHP array never holds one key twice. */
  predicate DistinctKeys(entries: seq<Entry>) {
    forall i, j :: 0 <= i < j < |entries| ==> entries[i].key != entries[j].key
  }

  /** A PHP array of configuration values, in insertion order. */
  type PhpArray = entries: seq<Entry> | DistinctKeys(entries) witness []

  const LogPositionKey: string := "logPositionFile"

  /** The value stored under `key`, if the array has that key. */
  function Lookup(entries: PhpArray, key: string): (r: Option<Value>)
    ensures r.None? <==> forall i :: 0 <= i < |entries| ==> entries[i].key != key
    ensures forall i :: 0 <= i < |entries| && entries[i].key == key ==> r == Some(entries[i].value)
  {
    if entries == [] then None
    else if entries[0].key == key then Some(entries[0].value)
    else Lookup(entries[1..], key)
  }

  /** The builder settings after `with<key>(value)` has been called, in
      order, for every entry whose key names a builder method; entries whose
      key names none are skipped. */
  function Applied(entries: seq<Entry>, settings: map<Setting, Argument>): map<Setting, Argument>
    decreases |entries|
  {
    if entries == [] then settings
    else
      var prior := Applied(entries[..|entries| - 1], settings);
      var last := entries[|entries| - 1];
      match SettingFor(last.key)
      case Some(s) => prior[s := Scalar(last.value)]
      case None => prior
  }

  datatype ConsumerConfiguration = ConsumerConfiguration(config: PhpArray) {

    /** The checkpoint file: the `logPositionFile` entry unless it is absent
        or null. PHP converts an integer to its decimal text on return. */
    function LogPositionFile(): (r: Option<string>)
      ensures r.None? <==> forall i :: 0 <= i < |config| && config[i].key == LogPositionKey ==> config[i].value.Null?
      ensures forall i :: 0 <= i < |config| && config[i].key == LogPositionKey && config[i].value.Text?
                ==> r == Some(config[i].value.text)
      ensures forall i :: 0 <= i < |config| && config[i].key == LogPositionKey && config[i].value.Number?
                ==> r == Some(DecimalText(config[i].value.number))
    {
      match Lookup(config, LogPositionKey)
      case Some(Text(path)) => Some(path)
      case Some(Number(n)) => Some(DecimalText(n))
      case _ => None
    }

    /** Calls `with<key>(value)` on the builder for each entry, in order,
        when the builder has such a method. */
    method Configure(builder: ConfigBuilder)
      modifies builder
      ensures builder.settings == Applied(config, old(builder.settings))
    {
      var i := 0;
      while i < |config|
        invariant 0 <= i <= |config|
        invariant builder.settings == Applied(config[..i], old(builder.settings))
      {
        TakeSnoc(config, i);
        AppliedSnoc(config[..i], config[i], old(builder.settings));
        match SettingFor(config[i].key) {
          case Some(s) => builder.With(s, Scalar(config[i].value));
          case None =>
        }
        i := i + 1;
      }
      assert config[..i] == config;
    }
  }

  /** A setting no entry names keeps the value it had before. */
  lemma {:induction false} AppliedKeeps(entries: seq<Entry>, settings: map<Setting, Argument>, s: Setting)
    requires forall i :: 0 <= i < |entries| ==> SettingFor(entries[i].key) != Some(s)
    ensures s in Applied(entries, settings) <==> s in settings
    ensures s in settings ==> Applied(entries, settings)[s] == settings[s]
    decreases |entries|
  {
    if entries != [] {
      var init := entries[..|entries| - 1];
      forall i | 0 <= i < |init|
        ensures SettingFor(init[i].key) != Some(s)
      {
        assert init[i] == entries[i];
      }
      AppliedKeeps(init, settings, s);
      AppliedStepKeeps(entries, settings, s);
    }
  }

  /** One step of Applied: an entry that does not name `s` leaves it as it was. */
  lemma AppliedStepKeeps(entries: seq<Entry>, settings: map<Setting, Argument>, s: Setting)
    requires entries != [] && SettingFor(entries[|entries| - 1].key) != Some(s)
    ensures var prior := Applied(entries[..|entries| - 1], settings);
      && (s in Applied(entries, settings) <==> s in prior)
      && (s in prior ==> Applied(entries, settings)[s] == prior[s])
  {
  }

  /** A setting takes the value of the last entry that names it. */
  lemma {:induction false} AppliedTakes(entries: seq<Entry>, settings: map<Setting, Argument>, s: Setting, k: nat)
    requires k < |entries| && SettingFor(entries[k].key) == Some(s)
    requires forall j :: k < j < |entries| ==> SettingFor(entries[j].key) != Some(s)
    ensures s in Applied(entries, settings)
    ensures Applied(entries, settings)[s] == Scalar(entries[k].value)
    decreases |entries|
  {
    var init := entries[..|entries| - 1];
    if k < |entries| - 1 {
      assert init[k] == entries[k];
      forall j | k < j < |init|
        ensures SettingFor(init[j].key) != Some(s)
      {
        assert init[j] == entries[j];
      }
      AppliedTakes(init, settings, s, k);
      AppliedStepKeeps(entries, settings, s);
    } else {
      assert entries[|entries| - 1] == entries[k];
    }
  }

  /** Applied on an array with one more entry at its end. */
  lemma AppliedSnoc(init: seq<Entry>, last: Entry, settings: map<Setting, Argument>)
    ensures Applied(init + [last], settings) ==
      match SettingFor(last.key)
      case Some(s) => Applied(init, settings)[s := Scalar(last.value)]
      case None => Applied(init, settings)
  {
    assert (init + [last])[..|init|] == init;
  }

  /** An entry whose key names no builder method changes nothing, wherever
      it stands. */
  lemma {:induction false} AppliedSkipsUnknown(before: seq<Entry>, e: Entry, after: seq<Entry>, settings: map<Setting, Argument>)
    requires SettingFor(e.key).None?
    ensures Applied(before + [e] + after, settings) == Applied(before + after, settings)
    decreases |after|
  {
    if after == [] {
      assert before + [e] + after == before + [e];
      assert before + after == before;
      AppliedSnoc(before, e, settings);
    } else {
      var init := after[..|after| - 1];
      var last := after[|after| - 1];
      AppliedSkipsUnknown(before, e, init, settings);
      SplitLast(after);
      ConcatAssoc(before + [e], init, [last]);
      ConcatAssoc(before, init, [last]);
      AppliedSnoc(before + [e] + init, last, settings);
      AppliedSnoc(before + init, last, settings);
    }
  }
}
