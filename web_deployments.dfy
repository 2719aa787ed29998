/**
 * The Deployments list of a cluster's namespace: the create dialog (its
 * guards, the request body it sends, the reset after success and the
 * replicas field's `Number.parseInt(value) || 1`), the status badge and
 * the delete handler.
 */
module DeploymentsList {
  import opened Wrappers
  import opened WebCommon

  // ------------------------------------------------------------ parseInt

  /** The white space and line terminators `parseInt` skips before the number. */
  predicate JsSpace(c: char)
  {
    c == '\t' || c == '\n' || c == '\U{000B}' || c == '\U{000C}' || c == '\r' || c == ' ' ||
    c == '\U{00A0}' || c == '\U{1680}' || ('\U{2000}' <= c <= '\U{200A}') || c == '\U{2028}' ||
    c == '\U{2029}' || c == '\U{202F}' || c == '\U{205F}' || c == '\U{3000}' || c == '\U{FEFF}'
  }

  predicate IsDigit(c: char)
  {
    '0' <= c <= '9'
  }

  /** The text after the leading white space. */
  function SkipSpace(s: string): string
  {
    if |s| > 0 && JsSpace(s[0]) then SkipSpace(s[1..]) else s
  }

  /** The longest run of decimal digits `s` starts with. */
  function LeadingDigits(s: string): (d: string)
    ensures |d| <= |s| && d == s[..|d|]
    ensures forall k :: 0 <= k < |d| ==> IsDigit(d[k])
    ensures |d| < |s| ==> !IsDigit(s[|d|])
  {
    if |s| > 0 && IsDigit(s[0]) then [s[0]] + LeadingDigits(s[1..]) else ""
  }

  /** The value of a run of decimal digits, most significant first. */
  function DigitsValue(d: string): nat
    requires forall k :: 0 <= k < |d| ==> IsDigit(d[k])
  {
    if |d| == 0 then 0
    else
      assert IsDigit(d[|d| - 1]);
      10 * DigitsValue(d[..|d| - 1]) + (d[|d| - 1] as int - '0' as int)
  }

  /**
   * `Number.parseInt(s)` for decimal text: leading white space is skipped,
   * one sign is read, then as many digits as follow; `None` is `NaN`, the
   * answer when no digit follows.
   */
  function ParseInt(s: string): Option<int>
  {
    var t := SkipSpace(s);
    var negative := |t| > 0 && t[0] == '-';
    var u := if |t| > 0 && (t[0] == '-' || t[0] == '+') then t[1..] else t;
    var d := LeadingDigits(u);
    if d == "" then None
    else Some(if negative then -(DigitsValue(d) as int) else DigitsValue(d))
  }

  /** The decimal text of `n`, without leading zeros. */
  function Decimal(n: nat): (s: string)
    ensures |s| > 0 && forall k :: 0 <= k < |s| ==> IsDigit(s[k])
  {
    var last := ('0' as int + n % 10) as char;
    if n < 10 then [last] else Decimal(n / 10) + [last]
  }

  lemma {:induction false} DecimalValue(n: nat)
    ensures DigitsValue(Decimal(n)) == n
  {
    if n >= 10 {
      DecimalValue(n / 10);
      var s := Decimal(n);
      assert s[..|s| - 1] == Decimal(n / 10);
    }
  }

  /** A run of digits followed by anything that is not a digit is read up to its end. */
  lemma {:induction false} LeadingDigitsOf(d: string, rest: string)
    requires forall k :: 0 <= k < |d| ==> IsDigit(d[k])
    requires rest == "" || !IsDigit(rest[0])
    ensures LeadingDigits(d + rest) == d
  {
    if |d| > 0 {
      LeadingDigitsOf(d[1..], rest);
      assert (d + rest)[1..] == d[1..] + rest;
    }
  }

  /**
   * `parseInt` reads back the decimal text of any number, with or without a
   * minus sign, and stops at whatever non-digit follows (a fraction or an
   * exponent).
   */
  lemma ParseDecimal(n: nat, rest: string)
    requires rest == "" || !IsDigit(rest[0])
    ensures ParseInt(Decimal(n) + rest) == Some(n)
    ensures ParseInt("-" + Decimal(n) + rest) == Some(-(n as int))
  {
    var d := Decimal(n);
    DecimalValue(n);
    LeadingDigitsOf(d, rest);
    assert SkipSpace(d + rest) == d + rest;
    assert SkipSpace("-" + d + rest) == "-" + d + rest;
    assert ("-" + d + rest)[1..] == d + rest;
  }

  // ------------------------------------------------------------ the create dialog

  /** The create dialog's fields (`newDeployment`). */
  datatype DeploymentForm = DeploymentForm(name: string, namespace: string, image: string, replicas: int, yaml: string)

  /** The form as first shown, as reset after a creation, and as left by 取消. */
  function EmptyForm(namespace: string): DeploymentForm
  {
    DeploymentForm("", namespace, "", 1, "")
  }

  /**
   * The replicas field's `Number.parseInt(value) || 1`: never 0, the number
   * `parseInt` reads when that is not 0, and 1 for `NaN` and for 0.
   */
  function Replicas(text: string): (r: int)
    ensures r != 0
    ensures ParseInt(text).Some? && ParseInt(text).value != 0 ==> r == ParseInt(text).value
    ensures ParseInt(text).None? || ParseInt(text) == Some(0) ==> r == 1
  {
    match ParseInt(text)
    case None => 1
    case Some(n) => if n == 0 then 1 else n
  }

  /**
   * What a number field can hold: a count other than 0 is kept, and a
   * fraction is cut to its whole part.
   */
  lemma ReplicasOfNumbers(n: nat, fraction: string)
    requires n > 0
    requires fraction == "" || !IsDigit(fraction[0])
    ensures Replicas(Decimal(n) + fraction) == n
    ensures Replicas("-" + Decimal(n) + fraction) == -(n as int)
  {
    ParseDecimal(n, fraction);
  }

  /** `0` and the cleared field both give one replica. */
  lemma ReplicasOfZero()
    ensures Replicas("0") == 1 && Replicas("") == 1
  {
    LeadingDigitsOf("0", "");
    assert "0" + "" == "0";
  }

  /** The body of the create request. */
  datatype Payload = YamlPayload(yaml: string) | FieldsPayload(name: string, image: string, replicas: int)

  /** A `kubernetesAPI.createResource(clusterId, namespace, kind, payload)` call. */
  datatype CreateCall = CreateCall(clusterId: string, namespace: string, kind: string, payload: Payload)

  /** What `handleCreateDeployment` did: its call, if any, the form it leaves, and whether it refreshed the list. */
  datatype CreateOutcome = CreateOutcome(call: Option<CreateCall>, form: DeploymentForm, refreshed: bool)

  /**
   * `handleCreateDeployment` of the list showing `namespace`, with `answer`
   * the API's reply (not consulted when the guard refuses).
   */
  function Create(clusterId: string, namespace: string, form: DeploymentForm, answer: Result<(), string>): CreateOutcome
  {
    if clusterId == "" || form.name == "" || form.image == "" then CreateOutcome(None, form, false)
    else
      var payload := if form.yaml != "" then YamlPayload(form.yaml) else FieldsPayload(form.name, form.image, form.replicas);
      var call := CreateCall(clusterId, form.namespace, "deployments", payload);
      if answer.Ok? then CreateOutcome(Some(call), EmptyForm(namespace), true)
      else CreateOutcome(Some(call), form, false)
  }

  /**
   * Nothing is sent without a cluster, a name and an image; otherwise a
   * Deployment is created in the form's namespace, from the YAML when one
   * was given and from the fields otherwise. Only a successful creation
   * refreshes the list and resets the form; a failed one keeps the input.
   */
  lemma CreateSpec(clusterId: string, namespace: string, form: DeploymentForm, answer: Result<(), string>)
    ensures var r := Create(clusterId, namespace, form, answer);
      (r.call.None? <==> clusterId == "" || form.name == "" || form.image == "") &&
      (r.call.Some? ==>
        r.call.value.clusterId == clusterId && r.call.value.namespace == form.namespace &&
        r.call.value.kind == "deployments" &&
        (form.yaml != "" ==> r.call.value.payload == YamlPayload(form.yaml)) &&
        (form.yaml == "" ==> r.call.value.payload == FieldsPayload(form.name, form.image, form.replicas))) &&
      (r.refreshed <==> r.call.Some? && answer.Ok?) &&
      r.form == (if r.refreshed then EmptyForm(namespace) else form)
  {
  }

  /** After a successful creation the reset form is refused until a name and image are entered again. */
  lemma CreateTwice(clusterId: string, namespace: string, form: DeploymentForm, answer: Result<(), string>,
                    again: Result<(), string>)
    requires Create(clusterId, namespace, form, answer).refreshed
    ensures Create(clusterId, namespace, Create(clusterId, namespace, form, answer).form, again).call.None?
  {
  }

  // ------------------------------------------------------------ the table

  /** The Deployment `StatusBadge`. */
  function StatusBadge(status: string): (b: Badge)
    ensures b == Success <==> status == "Available"
    ensures b == Warning <==> status == "Progressing"
    ensures b == Destructive <==> status == "Degraded" || status == "Failed"
    ensures b == Outline <==> status !in {"Available", "Progressing", "Degraded", "Failed"}
  {
    if status == "Available" then Success
    else if status == "Progressing" then Warning
    else if status == "Degraded" || status == "Failed" then Destructive
    else Outline
  }

  /** `handleDeleteResource` of the Deployments list. */
  function DeleteDeployment(clusterId: string, namespace: string, name: string, answer: Result<(), string>): (r: DeleteOutcome)
    ensures r.call.None? <==> clusterId == "" || namespace == ""
    ensures r.call.Some? ==> r.call.value == DeleteCall(clusterId, namespace, "deployments", name)
    ensures r.refreshed <==> r.call.Some? && answer.Ok?
  {
    DeleteResource(clusterId, namespace, "deployments", name, answer)
  }
}
