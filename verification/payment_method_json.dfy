/**
  The conversions of `PaymentMethodJson` between the payment domain object and
  its JSON transfer form.

  Java null is `None`; a `NullPointerException` thrown while converting is a
  `Failure(NullPointer)`. Identifiers are opaque strings: a UUID's string form
  and `UUID.fromString` are the identity here.
*/
module JsonPaymentMethods {
  import opened Wrappers

  /** The only exception these conversions can throw. */
  datatype JavaError = NullPointer

  /** The value of a plugin property: any Java object, of which a string is one kind. */
  datatype PropertyValue = StringValue(s: string) | OtherValue(rendered: string)

  /** `Object.toString()`: a string renders as itself, any other object as its rendering. */
  function ToJavaString(v: PropertyValue): string {
    match v
    case StringValue(s) => s
    case OtherValue(rendered) => rendered
  }

  // ---- Domain side (payment API) ----

  /** `PaymentMethodPlugin.PaymentMethodKVInfo`: one key/value property of a plugin. */
  datatype KVInfo = KVInfo(key: Option<string>, value: Option<PropertyValue>, isUpdatable: Option<bool>)

  /**
    The plugin detail of a payment method; `valueStrings` backs `getValueString(key)`.
    The property list and each of its elements may be null.
  */
  datatype PaymentMethodPlugin = PaymentMethodPlugin(
    externalPaymentMethodId: Option<string>,
    isDefaultPaymentMethod: bool,
    valueStrings: map<string, string>,
    properties: Option<seq<Option<KVInfo>>>)

  /** A payment method as the payment API hands it over. */
  datatype PaymentMethod = PaymentMethod(
    id: Option<string>,
    accountId: Option<string>,
    isActive: bool,
    pluginName: Option<string>,
    pluginDetail: Option<PaymentMethodPlugin>)

  /** The two account fields the conversion reads. */
  datatype Account = Account(id: Option<string>, paymentMethodId: Option<string>)

  // ---- JSON side ----

  /** `PaymentMethodJson.PaymentMethodProperties`. */
  datatype PaymentMethodProperties = PaymentMethodProperties(key: Option<string>, value: Option<string>, isUpdatable: Option<bool>)

  /** `PaymentMethodJson.PaymentMethodPluginDetailJson`; a JSON body may hold null list elements. */
  datatype PaymentMethodPluginDetailJson = PaymentMethodPluginDetailJson(
    externalPaymentId: Option<string>,
    properties: Option<seq<Option<PaymentMethodProperties>>>)

  /** `PaymentMethodJson` itself. */
  datatype PaymentMethodJson = PaymentMethodJson(
    paymentMethodId: Option<string>,
    accountId: Option<string>,
    isDefault: Option<bool>,
    pluginName: Option<string>,
    pluginInfo: Option<PaymentMethodPluginDetailJson>)

  /** Rendering element `i` throws: the element itself or its value is null. */
  predicate RenderThrowsAt(kvs: seq<Option<KVInfo>>, i: int)
    requires 0 <= i < |kvs|
  {
    kvs[i].None? || kvs[i].value.value.None?
  }

  /** Rendering the list throws somewhere. */
  ghost predicate RenderThrows(kvs: seq<Option<KVInfo>>) {
    exists i :: 0 <= i < |kvs| && RenderThrowsAt(kvs, i)
  }

  /** Some element of a JSON property list is null. */
  ghost predicate HasNullElement(ps: seq<Option<PaymentMethodProperties>>) {
    exists i :: 0 <= i < |ps| && ps[i].None?
  }

  /** `ps` is `kvs` entry by entry: same key and flag, the value rendered once with `toString()`. */
  ghost predicate RendersAs(kvs: seq<Option<KVInfo>>, ps: seq<Option<PaymentMethodProperties>>) {
    && |ps| == |kvs|
    && forall i :: 0 <= i < |kvs| ==>
         && kvs[i].Some?
         && kvs[i].value.value.Some?
         && ps[i] == Some(PaymentMethodProperties(
                           kvs[i].value.key,
                           Some(ToJavaString(kvs[i].value.value.value)),
                           kvs[i].value.isUpdatable))
  }

  /** `kvs` is `ps` entry by entry: same key and flag, a string value carried over as a string object. */
  ghost predicate CopiesBack(ps: seq<Option<PaymentMethodProperties>>, kvs: seq<Option<KVInfo>>) {
    && |kvs| == |ps|
    && forall i :: 0 <= i < |ps| ==>
         && ps[i].Some?
         && kvs[i] == Some(KVInfo(
                             ps[i].value.key,
                             if ps[i].value.value.Some? then Some(StringValue(ps[i].value.value.value)) else None,
                             ps[i].value.isUpdatable))
  }

  /** What a property comes back as after a trip through JSON: its value replaced by its string form. */
  ghost function RenderedBack(kv: KVInfo): KVInfo
    requires kv.value.Some?
  {
    KVInfo(kv.key, Some(StringValue(ToJavaString(kv.value.value))), kv.isUpdatable)
  }

  /**
    The transform applied to the plugin's properties on the way to JSON:
    `getKey()` on a null element and `toString()` on a null value throw.
  */
  function ToJsonProperties(kvs: seq<Option<KVInfo>>): (r: Result<seq<Option<PaymentMethodProperties>>, JavaError>)
    ensures r.Failure? <==> RenderThrows(kvs)
    ensures r.Success? ==> RendersAs(kvs, r.value)
    decreases |kvs|
  {
    if |kvs| == 0 then Success([])
    else
      match kvs[0]
      case None => assert RenderThrowsAt(kvs, 0); Failure(NullPointer)
      case Some(kv) =>
        match kv.value
        case None => assert RenderThrowsAt(kvs, 0); Failure(NullPointer)
        case Some(v) =>
          var rest := ToJsonProperties(kvs[1..]);
          if rest.Failure? then
            var j :| 0 <= j < |kvs[1..]| && RenderThrowsAt(kvs[1..], j);
            assert RenderThrowsAt(kvs, j + 1);
            rest
          else
            Success([Some(PaymentMethodProperties(kv.key, Some(ToJavaString(v)), kv.isUpdatable))] + rest.value)
  }

  /** `toPaymentMethodJson(account, in)`. */
  function ToPaymentMethodJson(account: Account, pm: PaymentMethod): (r: Result<PaymentMethodJson, JavaError>)
    ensures r.Failure? <==>
              || pm.id.None?
              || account.id.None?
              || (pm.pluginDetail.Some? && pm.pluginDetail.value.properties.Some?
                  && RenderThrows(pm.pluginDetail.value.properties.value))
    ensures r.Success? ==>
              && r.value.paymentMethodId == pm.id
              && r.value.accountId == account.id
              && r.value.pluginName == pm.pluginName
              && r.value.isDefault.Some?
              && (r.value.isDefault.value <==> account.paymentMethodId.Some? && account.paymentMethodId.value == pm.id.value)
    ensures r.Success? ==>
              (r.value.pluginInfo.None? <==> pm.pluginDetail.None? || pm.pluginDetail.value.properties.None?)
    ensures r.Success? && r.value.pluginInfo.Some? ==>
              && r.value.pluginInfo.value.externalPaymentId == pm.pluginDetail.value.externalPaymentMethodId
              && r.value.pluginInfo.value.properties.Some?
              && RendersAs(pm.pluginDetail.value.properties.value, r.value.pluginInfo.value.properties.value)
  {
    var isDefault := account.paymentMethodId.Some? && account.paymentMethodId == pm.id;
    var detail: Result<Option<PaymentMethodPluginDetailJson>, JavaError> :=
      match pm.pluginDetail
      case None => Success(None)
      case Some(plugin) =>
        match plugin.properties
        case None => Success(None)
        case Some(kvs) =>
          match ToJsonProperties(kvs)
          case Failure(e) => Failure(e)
          case Success(props) => Success(Some(PaymentMethodPluginDetailJson(plugin.externalPaymentMethodId, Some(props))));
    if detail.Failure? then Failure(detail.error)
    else if pm.id.None? || account.id.None? then Failure(NullPointer)
    else Success(PaymentMethodJson(pm.id, account.id, Some(isDefault), pm.pluginName, detail.value))
  }

  /**
    The loop of `getProperties()` on the way back: each JSON property becomes a
    key/value info; `getKey()` on a null element throws.
  */
  function FromJsonProperties(ps: seq<Option<PaymentMethodProperties>>): (r: Result<seq<Option<KVInfo>>, JavaError>)
    ensures r.Failure? <==> HasNullElement(ps)
    ensures r.Success? ==> CopiesBack(ps, r.value)
    decreases |ps|
  {
    if |ps| == 0 then Success([])
    else
      match ps[0]
      case None => Failure(NullPointer)
      case Some(p) =>
        var rest := FromJsonProperties(ps[1..]);
        if rest.Failure? then
          var j :| 0 <= j < |ps[1..]| && ps[1..][j].None?;
          assert ps[j + 1].None?;
          rest
        else
          var value := if p.value.Some? then Some(StringValue(p.value.value)) else None;
          Success([Some(KVInfo(p.key, value, p.isUpdatable))] + rest.value)
  }

  /**
    The plugin detail of the payment method `toPaymentMethod()` returns. Its
    accessors read the JSON lazily, so a null `pluginInfo` throws only when
    an accessor that dereferences it is called.
  */
  datatype JsonBackedPlugin = JsonBackedPlugin(pluginInfo: Option<PaymentMethodPluginDetailJson>) {

    function IsDefaultPaymentMethod(): bool {
      false
    }

    function GetValueString(key: string): Option<string> {
      None
    }

    function GetExternalPaymentMethodId(): Result<Option<string>, JavaError> {
      match pluginInfo
      case None => Failure(NullPointer)
      case Some(info) => Success(info.externalPaymentId)
    }

    function GetProperties(): Result<Option<seq<Option<KVInfo>>>, JavaError> {
      match pluginInfo
      case None => Failure(NullPointer)
      case Some(info) =>
        match info.properties
        case None => Success(None)
        case Some(ps) =>
          match FromJsonProperties(ps)
          case Failure(e) => Failure(e)
          case Success(kvs) => Success(Some(kvs))
    }
  }

  /** The payment method `toPaymentMethod()` returns: a view over the JSON fields. */
  datatype JsonBackedPaymentMethod = JsonBackedPaymentMethod(json: PaymentMethodJson) {

    function IsActive(): bool {
      true
    }

    function GetPluginName(): Option<string> {
      json.pluginName
    }

    function GetId(): Option<string> {
      json.paymentMethodId
    }

    function GetAccountId(): Option<string> {
      json.accountId
    }

    function GetPluginDetail(): JsonBackedPlugin {
      JsonBackedPlugin(json.pluginInfo)
    }
  }

  /** `toPaymentMethod()`. */
  function ToPaymentMethod(json: PaymentMethodJson): JsonBackedPaymentMethod {
    JsonBackedPaymentMethod(json)
  }

  /** The accessors of the converted payment method that ignore the JSON give fixed answers. */
  lemma ToPaymentMethodFixedAnswers(json: PaymentMethodJson, key: string)
    ensures ToPaymentMethod(json).IsActive()
    ensures !ToPaymentMethod(json).GetPluginDetail().IsDefaultPaymentMethod()
    ensures ToPaymentMethod(json).GetPluginDetail().GetValueString(key).None?
  {
  }

  /** Identifiers and the plugin name pass through, null exactly when the JSON field is null. */
  lemma ToPaymentMethodFields(json: PaymentMethodJson)
    ensures ToPaymentMethod(json).GetId().None? <==> json.paymentMethodId.None?
    ensures ToPaymentMethod(json).GetAccountId().None? <==> json.accountId.None?
    ensures json.paymentMethodId.Some? ==> ToPaymentMethod(json).GetId() == json.paymentMethodId
    ensures json.accountId.Some? ==> ToPaymentMethod(json).GetAccountId() == json.accountId
    ensures ToPaymentMethod(json).GetPluginName() == json.pluginName
  {
  }

  /** `getExternalPaymentMethodId()` of the converted payment method: it throws exactly when there is no plugin info. */
  lemma ToPaymentMethodExternalId(json: PaymentMethodJson)
    ensures var r := ToPaymentMethod(json).GetPluginDetail().GetExternalPaymentMethodId();
            && (r.Failure? <==> json.pluginInfo.None?)
            && (r.Success? ==> r.value == json.pluginInfo.value.externalPaymentId)
  {
  }

  /**
    `getProperties()` of the converted payment method: it throws when there is
    no plugin info or the list holds a null element, is null when the info has
    no property list, and otherwise copies the list in order.
  */
  lemma ToPaymentMethodProperties(json: PaymentMethodJson)
    ensures var props := ToPaymentMethod(json).GetPluginDetail().GetProperties();
            && (props.Failure? <==>
                  || json.pluginInfo.None?
                  || (json.pluginInfo.value.properties.Some? && HasNullElement(json.pluginInfo.value.properties.value)))
            && (props.Success? ==> (props.value.None? <==> json.pluginInfo.value.properties.None?))
            && (props.Success? && props.value.Some? ==>
                  CopiesBack(json.pluginInfo.value.properties.value, props.value.value))
  {
  }

  /**
    A property list that renders without throwing, taken to JSON and read back,
    keeps length and order, and each entry comes back with its key and flag and
    with its value replaced by that value's string form.
  */
  lemma PropertiesRoundTrip(kvs: seq<Option<KVInfo>>)
    requires !RenderThrows(kvs)
    ensures ToJsonProperties(kvs).Success?
    ensures FromJsonProperties(ToJsonProperties(kvs).value).Success?
    ensures var back := FromJsonProperties(ToJsonProperties(kvs).value).value;
            && |back| == |kvs|
            && forall i :: 0 <= i < |kvs| ==> kvs[i].Some? && kvs[i].value.value.Some? && back[i] == Some(RenderedBack(kvs[i].value))
  {
    var ps := ToJsonProperties(kvs).value;
    assert RendersAs(kvs, ps);
    assert !HasNullElement(ps);
  }

  /** A JSON property list with no null element or value survives being read back and rendered again unchanged. */
  lemma {:induction false} JsonPropertiesRoundTrip(ps: seq<Option<PaymentMethodProperties>>)
    requires forall i :: 0 <= i < |ps| ==> ps[i].Some? && ps[i].value.value.Some?
    ensures FromJsonProperties(ps).Success?
    ensures ToJsonProperties(FromJsonProperties(ps).value) == Success(ps)
  {
    assert !HasNullElement(ps);
    if |ps| > 0 {
      var kvs := FromJsonProperties(ps).value;
      JsonPropertiesRoundTrip(ps[1..]);
      assert kvs[1..] == FromJsonProperties(ps[1..]).value;
      assert kvs[0] == Some(KVInfo(ps[0].value.key, Some(StringValue(ps[0].value.value.value)), ps[0].value.isUpdatable));
      assert [ps[0]] + ps[1..] == ps;
    }
  }

  /** Rendering is stable: a rendered list read back renders to itself. */
  lemma RenderingIsStable(kvs: seq<Option<KVInfo>>)
    requires !RenderThrows(kvs)
    ensures ToJsonProperties(kvs).Success?
    ensures FromJsonProperties(ToJsonProperties(kvs).value).Success?
    ensures ToJsonProperties(FromJsonProperties(ToJsonProperties(kvs).value).value) == ToJsonProperties(kvs)
  {
    var ps := ToJsonProperties(kvs).value;
    assert RendersAs(kvs, ps);
    JsonPropertiesRoundTrip(ps);
  }

  /**
    A payment method converted to JSON and back: ids, plugin name and external
    id survive, each property comes back with its value replaced by its string
    form, and a missing plugin detail or property list makes both
    `getProperties()` and `getExternalPaymentMethodId()` throw.
  */
  lemma PaymentMethodRoundTrip(account: Account, pm: PaymentMethod)
    requires ToPaymentMethodJson(account, pm).Success?
    ensures var back := ToPaymentMethod(ToPaymentMethodJson(account, pm).value);
            && back.GetId() == pm.id
            && back.GetAccountId() == account.id
            && back.GetPluginName() == pm.pluginName
            && back.IsActive()
            && (back.GetPluginDetail().GetProperties().Failure? <==>
                  pm.pluginDetail.None? || pm.pluginDetail.value.properties.None?)
            && (back.GetPluginDetail().GetExternalPaymentMethodId().Failure? <==>
                  pm.pluginDetail.None? || pm.pluginDetail.value.properties.None?)
    ensures var back := ToPaymentMethod(ToPaymentMethodJson(account, pm).value).GetPluginDetail();
            back.GetProperties().Success? ==>
              && back.GetExternalPaymentMethodId() == Success(pm.pluginDetail.value.externalPaymentMethodId)
              && back.GetProperties().value.Some?
              && var kvs := pm.pluginDetail.value.properties.value;
                 var props := back.GetProperties().value.value;
                 && |props| == |kvs|
                 && forall i :: 0 <= i < |kvs| ==>
                      kvs[i].Some? && kvs[i].value.value.Some? && props[i] == Some(RenderedBack(kvs[i].value))
  {
    var j := ToPaymentMethodJson(account, pm).value;
    if j.pluginInfo.Some? {
      PropertiesRoundTrip(pm.pluginDetail.value.properties.value);
    }
  }
}
