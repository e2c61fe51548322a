/**
 * `DiscoveryOptions`: eight settings with constructor defaults and one
 * setter each. The setters store what they are given without checking it.
 */
module DiscoveryOptionsModule {
  import opened Wrappers

  const DefaultTimeout := 30000
  const DefaultManuallySelect := false
  const DefaultCookiesEnabled := true

  /** The eight settings, as a value. */
  datatype Settings = Settings(
    manuallySelect: bool,
    identifiedMCC: Option<string>,
    identifiedMNC: Option<string>,
    cookiesEnabled: bool,
    usingMobileData: Option<bool>,
    localClientIP: Option<string>,
    timeout: int,
    clientIP: Option<string>)

  class DiscoveryOptions {
    var manuallySelect: bool
    var identifiedMCC: Option<string>
    var identifiedMNC: Option<string>
    var cookiesEnabled: bool
    var usingMobileData: Option<bool>
    var localClientIP: Option<string>
    var timeout: int
    var clientIP: Option<string>

    function Current(): Settings
      reads this
    {
      Settings(manuallySelect, identifiedMCC, identifiedMNC, cookiesEnabled,
               usingMobileData, localClientIP, timeout, clientIP)
    }

    /** Timeout 30000, no manual selection, cookies enabled, every other setting null. */
    constructor ()
      ensures Current() == Settings(DefaultManuallySelect, None, None, DefaultCookiesEnabled,
                                    None, None, DefaultTimeout, None)
    {
      manuallySelect := DefaultManuallySelect;
      identifiedMCC := None;
      identifiedMNC := None;
      cookiesEnabled := DefaultCookiesEnabled;
      usingMobileData := None;
      localClientIP := None;
      timeout := DefaultTimeout;
      clientIP := None;
    }

    method SetManuallySelect(newValue: bool)
      modifies this
      ensures Current() == old(Current()).(manuallySelect := newValue)
    {
      manuallySelect := newValue;
    }

    method SetIdentifiedMCC(newValue: Option<string>)
      modifies this
      ensures Current() == old(Current()).(identifiedMCC := newValue)
    {
      identifiedMCC := newValue;
    }

    method SetIdentifiedMNC(newValue: Option<string>)
      modifies this
      ensures Current() == old(Current()).(identifiedMNC := newValue)
    {
      identifiedMNC := newValue;
    }

    method SetCookiesEnabled(newValue: bool)
      modifies this
      ensures Current() == old(Current()).(cookiesEnabled := newValue)
    {
      cookiesEnabled := newValue;
    }

    method SetUsingMobileData(newValue: Option<bool>)
      modifies this
      ensures Current() == old(Current()).(usingMobileData := newValue)
    {
      usingMobileData := newValue;
    }

    method SetLocalClientIP(newValue: Option<string>)
      modifies this
      ensures Current() == old(Current()).(localClientIP := newValue)
    {
      localClientIP := newValue;
    }

    method SetTimeout(newValue: int)
      modifies this
      ensures Current() == old(Current()).(timeout := newValue)
    {
      timeout := newValue;
    }

    method SetClientIP(newValue: Option<string>)
      modifies this
      ensures Current() == old(Current()).(clientIP := newValue)
    {
      clientIP := newValue;
    }
  }

  /** A getter returns the last value set, whatever was set to other fields since. */
  method TestLastSetWins(mcc1: Option<string>, mcc2: Option<string>, timeout: int)
    returns (s: Settings)
    ensures s.identifiedMCC == mcc2 && s.timeout == timeout
    ensures s.manuallySelect == DefaultManuallySelect && s.cookiesEnabled == DefaultCookiesEnabled
    ensures s.identifiedMNC.None? && s.usingMobileData.None? && s.localClientIP.None? && s.clientIP.None?
  {
    var options := new DiscoveryOptions();
    options.SetIdentifiedMCC(mcc1);
    options.SetTimeout(timeout);
    options.SetIdentifiedMCC(mcc2);
    s := options.Current();
  }
}
