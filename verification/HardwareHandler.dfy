/** The pairing part of core's hardware handler (coremgr/src/Controller/HardwareHandler.cpp): a timer
 * per confirmation request, found again by device address. */
module HardwareHandlers {
  import opened CommandPipeline
  import opened Timers

  const TIMEOUT_REQUEST_CONFIRMATION_MS := 30000

  class HardwareHandler {
    const timer: Timer<string>
    var timerIdMap: map<string, int>
    var sent: seq<DeviceOp>

    constructor (timer: Timer<string>)
      ensures this.timer == timer && timerIdMap == map[] && sent == []
    {
      this.timer := timer;
      timerIdMap := map[];
      sent := [];
    }

    /** Stops whatever timer holds the stored id, and forgets the id. */
    method RemoveTimerOnTimerIdMap(key: string)
      requires timer.Valid()
      modifies this`timerIdMap, timer`table
      ensures timer.Valid()
      ensures timerIdMap == old(timerIdMap) - {key}
      ensures timer.table ==
        if key in old(timerIdMap) then old(timer.table) - {old(timerIdMap)[key]} else old(timer.table)
    {
      if key in timerIdMap {
        var stopped := timer.StopTimer(timerIdMap[key]);
        timerIdMap := timerIdMap - {key};
      }
    }

    /** acceptBTDeviceRequestConfirmation and rejectBTDeviceRequestConfirmation. */
    method AnswerConfirmation(op: Op, address: string)
      requires timer.Valid() && (op == ACCEPT || op == REJECT)
      modifies this, timer`table
      ensures timer.Valid()
      ensures sent == old(sent) + [DeviceOp(op, address)] == old(sent) + Handled(FromClient(DeviceOp(op, address)))
      ensures timerIdMap == old(timerIdMap) - {address}
      ensures timer.table ==
        if address in old(timerIdMap) then old(timer.table) - {old(timerIdMap)[address]} else old(timer.table)
    {
      sent := sent + [DeviceOp(op, address)];
      RemoveTimerOnTimerIdMap(address);
    }

    /** btDeviceRequestConfirmationNOTI, after its broadcast. */
    method RequestConfirmation(address: string, now: int)
      requires timer.Valid()
      modifies this`timerIdMap, timer`table, timer`nextTimerId, timer`started
      ensures timer.Valid()
      ensures !timer.queueSet || |old(timer.table)| >= 2_147_483_646 ==>
        timer.table == old(timer.table) && timerIdMap == old(timerIdMap)
      ensures timer.queueSet && |old(timer.table)| < 2_147_483_646 ==>
        && timerIdMap.Keys == old(timerIdMap).Keys + {address}
        && var id := timerIdMap[address];
           && timerIdMap == old(timerIdMap)[address := id] && id !in old(timer.table)
           && timer.table == old(timer.table)[id :=
                Element(id, now + 30000, address, old(timer.started), now)]
    {
      var id := timer.StartTimer(TIMEOUT_REQUEST_CONFIRMATION_MS, address, now);
      if id != -1 {
        timerIdMap := timerIdMap[address := id];
        assert id in timer.table;
      }
    }

    /** handleBTDeviceRequestConfirmationTimeout: a rejection goes out, and the stored id stays. */
    method ConfirmationTimedOut(address: string)
      modifies this`sent
      ensures sent == old(sent) + [DeviceOp(REJECT, address)] == old(sent) + Handled(Timeout(address))
    {
      sent := sent + [DeviceOp(REJECT, address)];
    }
  }
}
