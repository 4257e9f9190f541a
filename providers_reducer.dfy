/**
 * The UPDATE_PROVIDER transition of the providers store slice. The reducer's own source is
 * not part of this model. Its test asserts only what happens from the initial state: the
 * provider's entry holds the new data and its update status is success, and no other part of
 * the state changes. The body here is an assumed plain key update over empty initial tables;
 * what the contract says about other states follows from that assumption, not from the test.
 */
module ProvidersReducer {

  /** The entry kept for a provider under `map`. */
  datatype ProviderEntry = ProviderEntry(data: string)

  /** The per-provider status of the last update, under `updated`. */
  datatype UpdateStatus = UpdateStatus(status: string)

  /** The slice: the `map` table (as providerMap) and the `updated` table, and the rest of the state, which this action leaves alone. */
  datatype ProvidersState<Rest> = ProvidersState(providerMap: map<string, ProviderEntry>, updated: map<string, UpdateStatus>, rest: Rest)

  /** The initial state: both tables empty; what the rest holds is not part of this model. */
  function InitialState<Rest>(rest: Rest): ProvidersState<Rest>
  {
    ProvidersState(map[], map[], rest)
  }

  datatype ProviderAction = UpdateProvider(id: string, data: string)

  function Reduce<Rest>(s: ProvidersState<Rest>, action: ProviderAction): (r: ProvidersState<Rest>)
    ensures s == InitialState(s.rest) ==>
      && r.providerMap == map[action.id := ProviderEntry(action.data)]
      && r.updated == map[action.id := UpdateStatus("success")]
    ensures r.rest == s.rest
    ensures r.providerMap.Keys <= s.providerMap.Keys + {action.id} && r.updated.Keys <= s.updated.Keys + {action.id}
  {
    match action
    case UpdateProvider(id, data) =>
      s.(providerMap := s.providerMap[id := ProviderEntry(data)], updated := s.updated[id := UpdateStatus("success")])
  }

  /** The reducer test: the expected state is a copy of the initial state with exactly these two tables replaced. */
  lemma UpdateProviderFromInitialState<Rest>(rest: Rest)
    ensures var expected := InitialState(rest).(
      providerMap := map["someProviderName" := ProviderEntry("some important data")],
      updated := map["someProviderName" := UpdateStatus("success")]);
      Reduce(InitialState(rest), UpdateProvider("someProviderName", "some important data")) == expected
  {
  }
}
