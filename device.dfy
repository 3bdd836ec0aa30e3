/**
  The driver objects: the session class WP6003BLEDevice, the table that
  routes notifications to it, and the advertisement callback object.
  Every method is proved to change the state exactly as the matching
  function of module Session says.
 */
module Device {
  import opened Options
  import opened Protocol
  import opened Session

  /**
    The process-wide map from a sensor characteristic to the session that
    subscribed to it (a static member in the driver, so one object that
    every session shares).
   */
  class SensorRouting {
    var routes: map<Option<Handle>, WP6003BLEDevice>

    constructor ()
      ensures routes == map[]
    {
      routes := map[];
    }

    /**
      The static notification callback: looks the characteristic up and
      hands the frame to the session registered for it.
     */
    method NotifyCallback(characteristic: Handle, data: seq<Byte>, now: int)
      requires Some(characteristic) in routes
      requires routes[Some(characteristic)].Valid()
      requires |data| >= 1 && (data[0] == TELEMETRY_TAG ==> |data| >= TELEMETRY_MIN_LENGTH)
      modifies routes[Some(characteristic)]
      ensures routes[Some(characteristic)].Valid()
      ensures routes[Some(characteristic)].State() == Notify(old(routes[Some(characteristic)].State()), data, now)
    {
      var device := routes[Some(characteristic)];
      device.OnNotification(data, now);
    }
  }

  class WP6003BLEDevice {
    const deviceName: string
    const notificationInterval: int
    const timeoutInterval: int
    const routing: SensorRouting

    var notifyRequest: int
    var connectionStatus: Status
    var notifyTime: int
    var serverAddress: Option<Address>
    var remoteCommand: Option<Handle>
    var remoteSensor: Option<Handle>

    // current sensor values, in fixed point
    var temp: nat
    var tvoc: nat
    var hcho: nat
    var co2: nat

    /** Every frame written to the command characteristic, oldest first. */
    var commandWrites: seq<seq<Byte>>

    function State(): SessionState
      reads this
    {
      SessionState(deviceName, notificationInterval, timeoutInterval, connectionStatus,
                   notifyRequest, notifyTime, serverAddress, remoteCommand, remoteSensor,
                   Reading(temp, tvoc, hcho, co2), commandWrites)
    }

    ghost predicate Valid()
      reads this
    {
      Inv(State())
    }

    /**
      A new session for the sensor advertising `deviceName`. The readings,
      the liveness timestamp, the address and the characteristic pointers
      are left uninitialised, as the driver leaves them.
     */
    constructor (deviceName: string, routing: SensorRouting)
      ensures Valid()
      ensures this.deviceName == deviceName && this.routing == routing
      ensures connectionStatus == Disconnected && notifyRequest == 0
      ensures notificationInterval == 600 && timeoutInterval == 1200
      ensures commandWrites == []
    {
      this.deviceName := deviceName;
      this.routing := routing;
      notifyRequest := 0;
      notificationInterval := 600;
      timeoutInterval := 1200;
      connectionStatus := Disconnected;
      notifyTime := *;
      serverAddress := *;
      remoteCommand := *;
      remoteSensor := *;
      temp, tvoc, hcho, co2 := *, *, *, *;
      commandWrites := [];
    }

    /** The health code: 0 pending, 1 connected, 2 disconnected, 3 error. */
    function GetError(): (code: int)
      reads this
      ensures 0 <= code <= 3
      ensures StatusOfCode(code) == Some(connectionStatus)
    {
      ErrorCode(connectionStatus)
    }

    /** Decodes one notified frame into the readings. */
    method OnNotification(data: seq<Byte>, now: int)
      requires Valid()
      requires |data| >= 1 && (data[0] == TELEMETRY_TAG ==> |data| >= TELEMETRY_MIN_LENGTH)
      modifies this
      ensures Valid()
      ensures State() == Notify(old(State()), data, now)
    {
      if data[0] != 0x0A {
        return;
      }
      temp := data[6] as int * 256 + data[7] as int;
      tvoc := data[10] as int * 256 + data[11] as int;
      hcho := data[12] as int * 256 + data[13] as int;
      co2 := data[16] as int * 256 + data[17] as int;
      notifyTime := now;
    }

    /**
      One connect attempt against the radio's answers `link`; `now` is
      the clock when the liveness timestamp is taken and `local` the
      wall-clock time sent in the time-sync frame.
     */
    method ConnectToServer(address: Address, link: Link, now: int, local: LocalTime) returns (ok: bool)
      requires Valid() && connectionStatus == Pending
      modifies this, routing
      ensures Valid()
      ensures ok == Connect(old(State()), link, now, local).ok
      ensures State() == Connect(old(State()), link, now, local).after
      ensures routing.routes == Register(old(routing.routes), link, this)
    {
      if !link.service {
        return false;
      }
      remoteCommand := link.command;
      if remoteCommand == None {
        return false;
      }
      remoteSensor := link.sensor;
      // the entry is written before the sensor pointer is checked
      routing.routes := routing.routes[remoteSensor := this];
      if remoteSensor == None {
        return false;
      }
      notifyTime := now;
      commandWrites := commandWrites + [TimeSyncFrame(local)];
      commandWrites := commandWrites + [NOTIFY_INTERVAL_FRAME];
      commandWrites := commandWrites + [REQUEST_FRAME];
      return true;
    }

    /**
      One poll tick: connects a pending session, then counts the poll of
      a connected one, requesting a notification and checking the
      liveness timeout each time the count passes the interval.
     */
    method UpdateSensorData(link: Link, connectNow: int, local: LocalTime, now: int)
      requires Valid()
      modifies this, routing
      ensures Valid()
      ensures State() == Poll(old(State()), link, connectNow, local, now)
      ensures routing.routes ==
        if old(connectionStatus) == Pending then Register(old(routing.routes), link, this)
        else old(routing.routes)
    {
      if connectionStatus == Pending {
        var ok := ConnectToServer(serverAddress.value, link, connectNow, local);
        if ok {
          connectionStatus := Connected;
        } else {
          connectionStatus := Disconnected;
        }
      }
      if connectionStatus == Connected {
        notifyRequest := notifyRequest + 1;
        if notifyRequest > notificationInterval {
          assert remoteCommand.Some?;
          commandWrites := commandWrites + [REQUEST_FRAME];
          notifyRequest := 0;
          if now > notifyTime + timeoutInterval {
            connectionStatus := Error;
          }
        }
      }
    }
  }

  /** The scan callback object, bound to one session. */
  class WP6003BLEAdvertisedDeviceCallbacks {
    const device: WP6003BLEDevice

    constructor (device: WP6003BLEDevice)
      ensures this.device == device
    {
      this.device := device;
    }

    /** Records a device advertising the configured name and marks the session pending. */
    method OnResult(adv: Advertisement)
      requires device.Valid()
      modifies device
      ensures device.Valid()
      ensures device.State() == Advertise(old(device.State()), adv)
    {
      if adv.name == device.deviceName {
        device.serverAddress := Some(adv.address);
        device.connectionStatus := Pending;
      }
    }
  }

}
