/** The records of the dashboard's state (types.ts), with the identifier and
    timestamp of an event left out, and the two transient records that App.tsx
    keeps in `activeFlow` and `ghostLeak`. Volumes and rates are exact reals. */
module Types {

  /** Today's counters (types.ts:26-31). */
  datatype DailyStats = DailyStats(used: real, goal: real, projectedBill: real, averageBill: real)

  /** One logged water use (types.ts:9-16, without `id`, `timestamp`, `isLeak`). */
  datatype WaterEvent = WaterEvent(appliance: string, volume: real, icon: string)

  /** A running appliance and its flow rate in gallons per minute (App.tsx:37). */
  datatype Flow = Flow(appliance: string, rate: real)

  /** A suspected silent leak: gallons lost so far and its age in ticks (App.tsx:40). */
  datatype Leak = Leak(wasted: real, duration: nat)
}
