/** The identity of a flow: a logical ID within a priority. */
module FlowKeys {
  datatype FlowKey = FlowKey(id: string, priority: int)
}
