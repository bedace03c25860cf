/** The configuration values the core reads. Loading the file is not part of
    this model; the values are parameters of the operations that use them. */
module Config {
  import opened Wrappers

  /** Default of `general.enable`. */
  const DefaultEnable := true

  /** Default of `general.timeout`, in milliseconds. */
  const DefaultTimeout: nat := 3000

  /** The `[general]` table: the master switch, class export, cloud PB
      injection and the network timeout. */
  datatype General = General(enable: bool, exportClass: bool, injectCloudPbs: bool, timeout: nat)

  /** The `[general]` table read from the keys present in the file: a
      missing `enable` is on, a missing `export_class` or
      `inject_cloud_pbs` is off, a missing `timeout` is the default. */
  function ReadGeneral(enable: Option<bool>, exportClass: Option<bool>, injectCloudPbs: Option<bool>,
                       timeout: Option<nat>): (g: General)
    ensures g.enable == (enable.None? || enable.value)
    ensures g.exportClass == (exportClass.Some? && exportClass.value)
    ensures g.injectCloudPbs == (injectCloudPbs.Some? && injectCloudPbs.value)
    ensures timeout.Some? ==> g.timeout == timeout.value
    ensures timeout.None? ==> g.timeout == DefaultTimeout
  {
    General(enable.GetOr(DefaultEnable), exportClass.GetOr(false), injectCloudPbs.GetOr(false),
            timeout.GetOr(DefaultTimeout))
  }

  /** With no key present, the request timeout is the 3000 ms default,
      under the cap. */
  lemma DefaultRequestTimeout()
    ensures EffectiveTimeout(ReadGeneral(None, None, None, None).timeout) == DefaultTimeout
  {
  }

  /** Hard upper bound on the network timeout, in milliseconds. */
  const MaxTimeout: nat := 10000

  /** The timeout actually used for a request: the configured one, capped. */
  function EffectiveTimeout(timeout: nat): (t: nat)
    ensures t <= MaxTimeout
    ensures t <= timeout
    ensures timeout <= MaxTimeout ==> t == timeout
  {
    if timeout > MaxTimeout then MaxTimeout else timeout
  }

  /** The card whitelist gate: an empty whitelist admits every card,
      otherwise only the listed ones. */
  predicate Admits(whitelist: seq<string>, card: string) {
    |whitelist| == 0 || card in whitelist
  }
}
