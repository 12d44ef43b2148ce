/** The request shapes of the CloudFormation API: parameter and tag maps become
    ordered lists of pairs, and the describe result's lists become maps again. */
module Requests {
  import opened Base
  import opened Dicts

  /** `{"ParameterKey": ..., "ParameterValue": ...}` */
  datatype Parameter = Parameter(parameterKey: string, parameterValue: string)

  /** `{"Key": ..., "Value": ...}` */
  datatype Tag = Tag(key: string, value: string)

  /** cfn_sync sends the template text, cfn_deploy a template URL. */
  datatype Template = TemplateBody(body: string) | TemplateUrl(url: string)

  /** The arguments of create_stack / update_stack (and the stack part of
      create_change_set).  `capabilities` is None when the call has no
      Capabilities argument at all. */
  datatype StackRequest = StackRequest(
    stackName: string,
    template: Template,
    parameters: seq<Parameter>,
    tags: seq<Tag>,
    capabilities: Option<seq<string>>)

  /** `parameter_dict_to_list`: one pair per entry, in the dict's order. */
  function ParameterDictToList(parameters: Dict): (r: seq<Parameter>)
    ensures |r| == |parameters|
    ensures forall i | 0 <= i < |r| ::
              r[i].parameterKey == parameters[i].0 && r[i].parameterValue == parameters[i].1
    decreases |parameters|
  {
    if parameters == [] then []
    else [Parameter(parameters[0].0, parameters[0].1)] + ParameterDictToList(parameters[1..])
  }

  /** `tag_dict_to_list`: one pair per entry, in the dict's order. */
  function TagDictToList(tags: Dict): (r: seq<Tag>)
    ensures |r| == |tags|
    ensures forall i | 0 <= i < |r| :: r[i].key == tags[i].0 && r[i].value == tags[i].1
    decreases |tags|
  {
    if tags == [] then [] else [Tag(tags[0].0, tags[0].1)] + TagDictToList(tags[1..])
  }

  function ParameterEntries(rows: seq<Parameter>): (r: seq<Entry>)
    ensures |r| == |rows| && forall i | 0 <= i < |rows| :: r[i] == (rows[i].parameterKey, rows[i].parameterValue)
  {
    seq(|rows|, i requires 0 <= i < |rows| => (rows[i].parameterKey, rows[i].parameterValue))
  }

  function TagEntries(rows: seq<Tag>): (r: seq<Entry>)
    ensures |r| == |rows| && forall i | 0 <= i < |rows| :: r[i] == (rows[i].key, rows[i].value)
  {
    seq(|rows|, i requires 0 <= i < |rows| => (rows[i].key, rows[i].value))
  }

  /** `Stack.parameters`: the comprehension over the describe result's
      Parameters list, which may be absent. */
  function ParametersFromRows(rows: Option<seq<Parameter>>): (r: Dict)
    ensures rows.None? ==> r == []
  {
    match rows
    case None => FromEntries([])
    case Some(rs) => FromEntries(ParameterEntries(rs))
  }

  /** `Stack.tags`: the comprehension over the describe result's Tags list,
      which may be absent. */
  function TagsFromRows(rows: Option<seq<Tag>>): (r: Dict)
    ensures rows.None? ==> r == []
  {
    match rows
    case None => FromEntries([])
    case Some(rs) => FromEntries(TagEntries(rs))
  }

  /** Converting a parameter dict to pairs and reading it back is the identity. */
  lemma ParameterRoundTrip(parameters: Dict)
    ensures ParametersFromRows(Some(ParameterDictToList(parameters))) == parameters
  {
    assert ParameterEntries(ParameterDictToList(parameters)) == parameters;
    FromEntriesOfDict(parameters);
  }

  /** Converting a tag dict to pairs and reading it back is the identity. */
  lemma TagRoundTrip(tags: Dict)
    ensures TagsFromRows(Some(TagDictToList(tags))) == tags
  {
    assert TagEntries(TagDictToList(tags)) == tags;
    FromEntriesOfDict(tags);
  }

  /** A Parameters list without repeated keys survives the opposite trip. */
  lemma ParameterRowsRoundTrip(rows: seq<Parameter>)
    requires DistinctKeys(ParameterEntries(rows))
    ensures ParameterDictToList(ParametersFromRows(Some(rows))) == rows
  {
    var d: Dict := ParameterEntries(rows);
    FromEntriesOfDict(d);
  }

  /** A Tags list without repeated keys survives the opposite trip. */
  lemma TagRowsRoundTrip(rows: seq<Tag>)
    requires DistinctKeys(TagEntries(rows))
    ensures TagDictToList(TagsFromRows(Some(rows))) == rows
  {
    var d: Dict := TagEntries(rows);
    FromEntriesOfDict(d);
  }

  /** `capabilities or []` */
  function CapabilitiesOrEmpty(capabilities: Option<seq<string>>): seq<string>
  {
    match capabilities
    case None => []
    case Some(c) => c
  }

  /** The request cfn_sync sends: the stack's name, the template text, both
      lists and `capabilities or []`. */
  function BodyRequest(name: string, templateBody: string, parameters: Dict, tags: Dict,
                       capabilities: Option<seq<string>>): StackRequest
  {
    StackRequest(name, TemplateBody(templateBody), ParameterDictToList(parameters),
                 TagDictToList(tags), Some(CapabilitiesOrEmpty(capabilities)))
  }

  /** The request cfn_deploy sends: a template URL and no Capabilities. */
  function UrlRequest(name: string, templateUrl: string, parameters: Dict, tags: Dict): StackRequest
  {
    StackRequest(name, TemplateUrl(templateUrl), ParameterDictToList(parameters),
                 TagDictToList(tags), None)
  }

  /** The request cfn_sync sends addresses the stack by name, carries exactly
      the given parameter and tag maps (they can be read back from it) and the
      stack's capabilities, or an empty list when none were set. */
  lemma BodyRequestCarries(name: string, templateBody: string, parameters: Dict, tags: Dict,
                           capabilities: Option<seq<string>>)
    ensures var r := BodyRequest(name, templateBody, parameters, tags, capabilities);
            r.stackName == name && r.template == TemplateBody(templateBody) &&
            ParametersFromRows(Some(r.parameters)) == parameters &&
            TagsFromRows(Some(r.tags)) == tags &&
            r.capabilities.Some? &&
            (capabilities.Some? ==> r.capabilities.value == capabilities.value) &&
            (capabilities.None? ==> r.capabilities.value == [])
  {
    ParameterRoundTrip(parameters);
    TagRoundTrip(tags);
  }

  /** The request cfn_deploy sends carries the template URL, exactly the given
      maps, and no Capabilities at all. */
  lemma UrlRequestCarries(name: string, templateUrl: string, parameters: Dict, tags: Dict)
    ensures var r := UrlRequest(name, templateUrl, parameters, tags);
            r.stackName == name && r.template == TemplateUrl(templateUrl) &&
            ParametersFromRows(Some(r.parameters)) == parameters &&
            TagsFromRows(Some(r.tags)) == tags &&
            r.capabilities.None?
  {
    ParameterRoundTrip(parameters);
    TagRoundTrip(tags);
  }
}
